/** src/twitter_user.py: looking up the configured users, partitioning the reply into found users
    and errors, and fetching each found user's latest tweets, run by create_thread's retry loop. */
module TwitterUser {
  import opened Wrappers
  import opened Errors
  import opened Json
  import opened Strings
  import opened OrderedDicts
  import opened Utils
  import opened Http
  import opened Retry

  /** What one run of main() meets outside the program: the server's reply to each request,
      json.loads, and the lines (str.splitlines) of the file at a path, None when open() fails. */
  datatype UserEnv = UserEnv(
    serve: Request -> Reply,
    parse: string -> Option<Json>,
    readLines: string -> Option<seq<string>>)

  // ---------------------------------------------------------------- URLs and parameters

  /** config["LINKS"][key].format(arg); a list has no format method. */
  function FormatLink(cfg: Parser, key: string, arg: string): (r: Result<string, Error>)
    ensures Lookup(cfg, "LINKS", key).Err? ==> r == Err(Lookup(cfg, "LINKS", key).error)
    ensures Lookup(cfg, "LINKS", key).Ok? && Lookup(cfg, "LINKS", key).value.Items? ==> r == Err(AttributeError)
    ensures Lookup(cfg, "LINKS", key).Ok? && Lookup(cfg, "LINKS", key).value.Text?
      ==> r == Format(Lookup(cfg, "LINKS", key).value.s, arg)
  {
    var template :- Lookup(cfg, "LINKS", key);
    if template.Items? then Err(AttributeError) else Format(template.s, arg)
  }

  /** create_users_url: the usernames file's lines, joined with commas, in the user link's field. */
  function CreateUsersUrl(cfg: Parser, env: UserEnv): (r: Result<string, Error>)
    ensures Lookup(cfg, DefaultSection, "usernames_file").Err? ==> r == Err(Lookup(cfg, DefaultSection, "usernames_file").error)
    ensures Lookup(cfg, DefaultSection, "usernames_file").Ok? && Lookup(cfg, DefaultSection, "usernames_file").value.Items?
      ==> r == Err(TypeError)
    ensures (&& Lookup(cfg, DefaultSection, "usernames_file").Ok? && Lookup(cfg, DefaultSection, "usernames_file").value.Text?
             && env.readLines(Lookup(cfg, DefaultSection, "usernames_file").value.s).None?)
      ==> r == Err(OSError)
    ensures r.Ok? ==>
      (&& env.readLines(Lookup(cfg, DefaultSection, "usernames_file").value.s).Some?
       && r == FormatLink(cfg, "twitter_user_link", Join(env.readLines(Lookup(cfg, DefaultSection, "usernames_file").value.s).value, ",")))
  {
    var path :- Lookup(cfg, DefaultSection, "usernames_file");
    if path.Items? then Err(TypeError)
    else if env.readLines(path.s).None? then Err(OSError)
    else FormatLink(cfg, "twitter_user_link", Join(env.readLines(path.s).value, ","))
  }

  /** With a user link made of text around one "{}", the URL is that text around the comma-joined
      usernames, and splitting that part at the commas gives the usernames back when none of them
      holds a comma. */
  lemma UsersUrlListsNames(cfg: Parser, env: UserEnv, path: string, names: seq<string>, prefix: string, suffix: string)
    requires Lookup(cfg, DefaultSection, "usernames_file") == Ok(Text(path))
    requires env.readLines(path) == Some(names)
    requires Lookup(cfg, "LINKS", "twitter_user_link") == Ok(Text(prefix + "{}" + suffix))
    requires NoBraces(prefix) && NoBraces(suffix)
    ensures CreateUsersUrl(cfg, env) == Ok(prefix + Join(names, ",") + suffix)
    ensures |names| >= 1 && (forall i :: 0 <= i < |names| ==> ',' !in names[i]) ==> Split(Join(names, ","), ',') == names
  {
    var joined := Join(names, ",");
    assert CreateUsersUrl(cfg, env) == FormatLink(cfg, "twitter_user_link", joined);
    assert FormatLink(cfg, "twitter_user_link", joined) == Format(prefix + "{}" + suffix, joined);
    FormatOneField(prefix, suffix, joined);
    if |names| >= 1 && (forall i :: 0 <= i < |names| ==> ',' !in names[i]) {
      SplitJoin(names, ',');
    }
  }

  /** The keys among ks whose value in the section is the text "True", in the order of ks. */
  function TrueKeys(cfg: Parser, section: string, ks: seq<string>): (r: seq<string>)
    ensures forall k :: k in r <==> k in ks && Lookup(cfg, section, k) == Ok(Text("True"))
  {
    if ks == [] then []
    else (if Lookup(cfg, section, ks[0]) == Ok(Text("True")) then [ks[0]] else []) + TrueKeys(cfg, section, ks[1..])
  }

  /** The comprehension keeps the order of the keys it visits: selecting from two runs of keys one
      after the other gives the selection of each, in order. */
  lemma {:induction false} TrueKeysAppend(cfg: Parser, section: string, a: seq<string>, b: seq<string>)
    ensures TrueKeys(cfg, section, a + b) == TrueKeys(cfg, section, a) + TrueKeys(cfg, section, b)
  {
    if a == [] {
      assert a + b == b;
    } else {
      var head := if Lookup(cfg, section, a[0]) == Ok(Text("True")) then [a[0]] else [];
      assert (a + b)[0] == a[0] && (a + b)[1..] == a[1..] + b;
      assert TrueKeys(cfg, section, a + b) == head + TrueKeys(cfg, section, a[1..] + b);
      TrueKeysAppend(cfg, section, a[1..], b);
      assert head + (TrueKeys(cfg, section, a[1..]) + TrueKeys(cfg, section, b))
          == (head + TrueKeys(cfg, section, a[1..])) + TrueKeys(cfg, section, b);
    }
  }

  /** One key is selected exactly when its value is the text "True". */
  lemma TrueKeysOne(cfg: Parser, section: string, k: string)
    ensures TrueKeys(cfg, section, [k]) == (if Lookup(cfg, section, k) == Ok(Text("True")) then [k] else [])
  {
    assert [k][1..] == [];
  }

  lemma {:induction false} TrueKeysDistinct(cfg: Parser, section: string, ks: seq<string>)
    requires Distinct(ks)
    ensures Distinct(TrueKeys(cfg, section, ks))
  {
    if ks != [] {
      TrueKeysDistinct(cfg, section, ks[1..]);
      var head := if Lookup(cfg, section, ks[0]) == Ok(Text("True")) then [ks[0]] else [];
      var rest := TrueKeys(cfg, section, ks[1..]);
      forall i | 0 <= i < |ks[1..]| ensures ks[1..][i] != ks[0] {
        assert ks[1..][i] == ks[i + 1];
      }
      assert ks[0] !in rest;
      var r := head + rest;
      forall i, j | 0 <= i < j < |r| ensures r[i] != r[j] {
        assert r[j] == rest[j - |head|] && r[j] in rest;
        if i >= |head| {
          assert r[i] == rest[i - |head|];
        } else {
          assert r[i] == ks[0];
        }
      }
    }
  }

  /** [key for key in config[section] if config[section][key] == "True"] */
  function EnabledFields(cfg: Parser, section: string): (r: Result<seq<string>, Error>)
    ensures r.Err? <==> section != DefaultSection && section !in cfg.sections.entries
    ensures r.Err? ==> r.error == KeyError(section)
    ensures r.Ok? ==> r.value == TrueKeys(cfg, section, SectionKeys(cfg, section).value)
  {
    var ks :- SectionKeys(cfg, section);
    Ok(TrueKeys(cfg, section, ks))
  }

  /** The enabled fields of a section are exactly the options it holds or inherits whose value is
      "True", each once; when there is one or more and none holds a comma, the comma-joined
      parameter splits back into them. A missing section raises KeyError. */
  lemma EnabledFieldsExact(cfg: Parser, section: string)
    requires cfg.Valid()
    ensures section != DefaultSection && section !in cfg.sections.entries ==> EnabledFields(cfg, section) == Err(KeyError(section))
    ensures section == DefaultSection || section in cfg.sections.entries ==>
      && EnabledFields(cfg, section).Ok?
      && Distinct(EnabledFields(cfg, section).value)
      && (forall k :: k in EnabledFields(cfg, section).value <==>
            (k in cfg.defaults.entries || (section != DefaultSection && k in cfg.sections.entries[section].entries))
            && Lookup(cfg, section, k) == Ok(Text("True")))
    ensures section == DefaultSection || section in cfg.sections.entries ==>
      var fs := EnabledFields(cfg, section).value;
      |fs| >= 1 && (forall i :: 0 <= i < |fs| ==> ',' !in fs[i]) ==> Split(Join(fs, ","), ',') == fs
  {
    if section == DefaultSection || section in cfg.sections.entries {
      var ks := SectionKeys(cfg, section).value;
      if section == DefaultSection {
        assert Distinct(ks) && forall k :: k in ks <==> k in cfg.defaults.entries;
      } else {
        InheritedOptionsDistinct(cfg, section);
      }
      TrueKeysDistinct(cfg, section, ks);
      var fs := EnabledFields(cfg, section).value;
      if |fs| >= 1 && (forall i :: 0 <= i < |fs| ==> ',' !in fs[i]) {
        SplitJoin(fs, ',');
      }
    }
  }

  /** get_users_params: {"user.fields": the enabled USERFIELDS, comma-joined}. */
  function GetUsersParams(cfg: Parser): (r: Result<seq<(string, string)>, Error>)
    ensures r.Ok? <==> EnabledFields(cfg, "USERFIELDS").Ok?
    ensures r.Ok? ==> r.value == [("user.fields", Join(EnabledFields(cfg, "USERFIELDS").value, ","))]
  {
    var fields :- EnabledFields(cfg, "USERFIELDS");
    Ok([("user.fields", Join(fields, ","))])
  }

  /** get_tweets_params: the enabled TWEETFIELDS, comma-joined, and max_results 5 (httpx sends the
      integer as the text "5"). */
  function GetTweetsParams(cfg: Parser): (r: Result<seq<(string, string)>, Error>)
    ensures r.Ok? <==> EnabledFields(cfg, "TWEETFIELDS").Ok?
    ensures r.Ok? ==> r.value == [("tweet.fields", Join(EnabledFields(cfg, "TWEETFIELDS").value, ",")), ("max_results", "5")]
  {
    var fields :- EnabledFields(cfg, "TWEETFIELDS");
    Ok([("tweet.fields", Join(fields, ",")), ("max_results", "5")])
  }

  /** create_tweets_url: the tweets link with str(user_id) in its field. */
  function CreateTweetsUrl(cfg: Parser, id: Json): (r: Result<string, Error>)
    requires Hashable(id)
    ensures r.Ok? <==>
      (&& Lookup(cfg, "LINKS", "twitter_user_tweets_link").Ok?
       && Lookup(cfg, "LINKS", "twitter_user_tweets_link").value.Text?
       && Format(Lookup(cfg, "LINKS", "twitter_user_tweets_link").value.s, PyStr(id)).Ok?)
    ensures Lookup(cfg, "LINKS", "twitter_user_tweets_link").Ok? && Lookup(cfg, "LINKS", "twitter_user_tweets_link").value.Items?
      ==> r == Err(AttributeError)
  {
    FormatLink(cfg, "twitter_user_tweets_link", PyStr(id))
  }

  /** A tweets link made of text around one "{}" holds the user id exactly there; a link with two
      "{}" raises IndexError for every id. */
  lemma TweetsUrlHoldsId(cfg: Parser, id: Json, prefix: string, middle: string, suffix: string)
    requires Hashable(id) && NoBraces(prefix) && NoBraces(middle) && NoBraces(suffix)
    ensures Lookup(cfg, "LINKS", "twitter_user_tweets_link") == Ok(Text(prefix + "{}" + suffix))
      ==> CreateTweetsUrl(cfg, id) == Ok(prefix + PyStr(id) + suffix)
    ensures Lookup(cfg, "LINKS", "twitter_user_tweets_link") == Ok(Text(prefix + "{}" + middle + "{}" + suffix))
      ==> CreateTweetsUrl(cfg, id) == Err(IndexError)
  {
    FormatOneField(prefix, suffix, PyStr(id));
    FormatTwoFields(prefix, middle, suffix, PyStr(id));
  }

  /** A numeric id appears in the URL in decimal. */
  lemma TweetsUrlOfNumericId(cfg: Parser, n: int, prefix: string, suffix: string)
    requires NoBraces(prefix) && NoBraces(suffix)
    requires Lookup(cfg, "LINKS", "twitter_user_tweets_link") == Ok(Text(prefix + "{}" + suffix))
    ensures CreateTweetsUrl(cfg, Num(n)) == Ok(prefix + DecimalString(n) + suffix)
  {
    FormatOneField(prefix, suffix, DecimalString(n));
  }

  /** connect_to_endpoint: GET with the parameters; anything but 200 raises, then the body is parsed. */
  function ConnectToEndpoint(env: UserEnv, url: string, params: seq<(string, string)>): (s: Step<Json>)
    ensures Requests(s.trace) == [Request(Get, url, params, None)]
  {
    var req := Request(Get, url, params, None);
    assert Requests([Sent(req)]) == [req] by {
      assert [Sent(req)][1..] == [];
    }
    Step([Sent(req)], Call(env.serve, env.parse, req, 200))
  }

  /** connect_to_endpoint returns the parsed body exactly for a 200 reply with a JSON body; any other
      status raises HTTPStatusError carrying it, a transport failure RequestError. */
  lemma ConnectStatus(env: UserEnv, url: string, params: seq<(string, string)>)
    ensures var reply := env.serve(Request(Get, url, params, None)); var r := ConnectToEndpoint(env, url, params).result;
      && (r.Ok? <==> reply.Response? && reply.status == 200 && env.parse(reply.text).Some?)
      && (r.Ok? ==> r.value == env.parse(reply.text).value)
      && (reply.Response? && reply.status != 200 ==> r == Err(HTTPStatusError(reply.status, reply.headers)))
      && (reply.TransportFailure? ==> r == Err(RequestError))
  {
  }

  // ---------------------------------------------------------------- partitioning the reply

  /** What `for item in users_response.get(key, [])` visits. A reply that is not a dict has no get
      (AttributeError); a missing key visits nothing; iterating a non-empty dict or str yields str
      items, on which the loop body raises notDict; None, numbers and booleans are not iterable. */
  function Entries(resp: Json, key: string, notDict: Error): (r: Result<seq<Json>, Error>)
    ensures !resp.Obj? ==> r == Err(AttributeError)
    ensures resp.Obj? && key !in resp.fields ==> r == Ok([])
    ensures resp.Obj? && key in resp.fields && resp.fields[key].Arr? ==> r == Ok(resp.fields[key].items)
    ensures r.Ok? && !(resp.Obj? && key in resp.fields && resp.fields[key].Arr?) ==> r.value == []
  {
    if !resp.Obj? then Err(AttributeError)
    else if key !in resp.fields then Ok([])
    else match resp.fields[key]
      case Arr(items) => Ok(items)
      case Obj(m) => if |m| == 0 then Ok([]) else Err(notDict)
      case Str(s) => if s == "" then Ok([]) else Err(notDict)
      case _ => Err(TypeError)
  }

  /** item["id"] used as a dict key. */
  function DataKey(item: Json): (r: Result<Json, Error>)
    ensures r.Ok? ==> Hashable(r.value)
    ensures r.Ok? <==> item.Obj? && "id" in item.fields && Hashable(item.fields["id"])
    ensures r.Ok? ==> r.value == item.fields["id"]
    ensures item.Obj? && "id" !in item.fields ==> r == Err(KeyError("id"))
    ensures item.Obj? && "id" in item.fields && !Hashable(item.fields["id"]) ==> r == Err(TypeError)
    ensures !item.Obj? ==> r == Err(TypeError)
  {
    match item
    case Obj(m) =>
      if "id" !in m then Err(KeyError("id"))
      else if !Hashable(m["id"]) then Err(TypeError)
      else Ok(m["id"])
    case _ => Err(TypeError)
  }

  /** item.get("resource_id", "Unknown") used as a dict key. */
  function ErrorKey(item: Json): (r: Result<Json, Error>)
    ensures r.Ok? ==> Hashable(r.value)
    ensures item.Obj? && "resource_id" !in item.fields ==> r == Ok(Str("Unknown"))
    ensures !item.Obj? ==> r == Err(AttributeError)
    ensures item.Obj? && "resource_id" in item.fields ==>
      r == (if Hashable(item.fields["resource_id"]) then Ok(item.fields["resource_id"]) else Err(TypeError))
  {
    match item
    case Obj(m) =>
      var k := if "resource_id" in m then m["resource_id"] else Str("Unknown");
      if Hashable(k) then Ok(k) else Err(TypeError)
    case _ => Err(AttributeError)
  }

  /** The dict built by `d[keyOf(item)] = item` over the items, in order; the first item whose key
      cannot be computed raises. */
  function IndexBy(items: seq<Json>, keyOf: Json -> Result<Json, Error>): (r: Result<ODict<Json, Json>, Error>)
    ensures r.Ok? ==> r.value.Valid()
    ensures r.Ok? <==> forall i :: 0 <= i < |items| ==> keyOf(items[i]).Ok?
  {
    if items == [] then Ok(Empty())
    else
      var n := |items| - 1;
      assert forall i :: 0 <= i < n ==> items[..n][i] == items[i];
      var prev :- IndexBy(items[..n], keyOf);
      var k :- keyOf(items[n]);
      Ok(prev.Put(k, items[n]))
  }

  /** The loop that fills the dict. */
  method IndexItems(items: seq<Json>, keyOf: Json -> Result<Json, Error>) returns (r: Result<ODict<Json, Json>, Error>)
    ensures r == IndexBy(items, keyOf)
  {
    var d: ODict<Json, Json> := Empty();
    var i := 0;
    assert items[..0] == [];
    while i < |items|
      invariant i <= |items|
      invariant IndexBy(items[..i], keyOf) == Ok(d)
    {
      assert items[..i + 1][..i] == items[..i];
      var k := keyOf(items[i]);
      if k.Err? {
        IndexByFailsOnce(items, keyOf, i + 1);
        assert items[..i + 1][i] == items[i];
        return Err(k.error);
      }
      d := d.Put(k.value, items[i]);
      i := i + 1;
    }
    assert items[..i] == items;
    r := Ok(d);
  }

  /** Once a prefix fails, every longer prefix fails with the same error. */
  lemma {:induction false} IndexByFailsOnce(items: seq<Json>, keyOf: Json -> Result<Json, Error>, j: nat)
    requires 0 < j <= |items| && IndexBy(items[..j - 1], keyOf).Ok? && keyOf(items[j - 1]).Err?
    ensures IndexBy(items, keyOf) == Err(keyOf(items[j - 1]).error)
    decreases |items|
  {
    var n := |items| - 1;
    if j - 1 == n {
      assert items[..j - 1] == items[..n];
    } else {
      assert items[..n][..j - 1] == items[..j - 1] && items[..n][j - 1] == items[j - 1];
      IndexByFailsOnce(items[..n], keyOf, j);
    }
  }

  /** The keys the items give, in order. */
  function KeysOf(items: seq<Json>, keyOf: Json -> Result<Json, Error>): (ks: seq<Json>)
    requires forall i :: 0 <= i < |items| ==> keyOf(items[i]).Ok?
    ensures |ks| == |items| && forall i :: 0 <= i < |items| ==> ks[i] == keyOf(items[i]).value
  {
    seq(|items|, i requires 0 <= i < |items| => keyOf(items[i]).value)
  }

  /** The distinct elements of s in the order of their first occurrence. */
  function Dedup(s: seq<Json>): (r: seq<Json>)
    ensures Distinct(r)
    ensures forall x :: x in r <==> x in s
  {
    if s == [] then []
    else
      var p := Dedup(s[..|s| - 1]);
      assert forall x :: x in s <==> x in s[..|s| - 1] || x == s[|s| - 1];
      if s[|s| - 1] in p then p else p + [s[|s| - 1]]
  }

  /** The item an index keeps under key k: the last one with that key. */
  predicate LastWithKey(items: seq<Json>, ks: seq<Json>, i: int, k: Json)
    requires |ks| == |items|
  {
    0 <= i < |items| && ks[i] == k && forall j :: i < j < |items| ==> ks[j] != k
  }

  /** The dict lists each distinct key once, in the order the keys first appear. */
  lemma {:induction false} IndexByKeys(items: seq<Json>, keyOf: Json -> Result<Json, Error>)
    requires forall i :: 0 <= i < |items| ==> keyOf(items[i]).Ok?
    ensures IndexBy(items, keyOf).Ok?
    ensures IndexBy(items, keyOf).value.keys == Dedup(KeysOf(items, keyOf))
  {
    if items != [] {
      var n := |items| - 1;
      var ks := KeysOf(items, keyOf);
      assert forall i :: 0 <= i < n ==> items[..n][i] == items[i];
      IndexByKeys(items[..n], keyOf);
      assert KeysOf(items[..n], keyOf) == ks[..|ks| - 1];
      var prev := IndexBy(items[..n], keyOf).value;
      assert forall k :: k in prev.entries <==> k in prev.keys;
    }
  }

  /** Under each key the dict holds the last item that gave it. */
  lemma {:induction false} IndexByEntries(items: seq<Json>, keyOf: Json -> Result<Json, Error>)
    requires forall i :: 0 <= i < |items| ==> keyOf(items[i]).Ok?
    ensures IndexBy(items, keyOf).Ok?
    ensures var d := IndexBy(items, keyOf).value;
      forall k :: k in d.entries ==> exists i :: LastWithKey(items, KeysOf(items, keyOf), i, k) && d.entries[k] == items[i]
  {
    if items != [] {
      var n := |items| - 1;
      var front := items[..n];
      assert forall i :: 0 <= i < n ==> front[i] == items[i];
      IndexByEntries(front, keyOf);
      var prev := IndexBy(front, keyOf).value;
      var d := IndexBy(items, keyOf).value;
      var k := keyOf(items[n]).value;
      assert d == prev.Put(k, items[n]);
      forall key | key in d.entries ensures exists i :: LastWithKey(items, KeysOf(items, keyOf), i, key) && d.entries[key] == items[i] {
        if key == k {
          assert LastWithKey(items, KeysOf(items, keyOf), n, key);
        } else {
          var i :| LastWithKey(front, KeysOf(front, keyOf), i, key) && prev.entries[key] == front[i];
          LastWithKeyExtends(items, front, keyOf, i, key);
        }
      }
    }
  }

  /** The last item with a key among all but the final item stays the last one when the final
      item gives another key. */
  lemma LastWithKeyExtends(items: seq<Json>, front: seq<Json>, keyOf: Json -> Result<Json, Error>, i: int, key: Json)
    requires items != [] && front == items[..|items| - 1]
    requires forall j :: 0 <= j < |items| ==> keyOf(items[j]).Ok?
    requires forall j :: 0 <= j < |front| ==> keyOf(front[j]).Ok?
    requires LastWithKey(front, KeysOf(front, keyOf), i, key)
    requires keyOf(items[|items| - 1]).value != key
    ensures LastWithKey(items, KeysOf(items, keyOf), i, key)
  {
    var n := |items| - 1;
    var ks := KeysOf(items, keyOf);
    var pks := KeysOf(front, keyOf);
    assert forall j :: 0 <= j < n ==> pks[j] == ks[j];
  }

  /** The ids of the found users can be dict keys. */
  lemma FoundKeysHashable(data: seq<Json>)
    requires IndexBy(data, DataKey).Ok?
    ensures forall i :: 0 <= i < |IndexBy(data, DataKey).value.keys| ==> Hashable(IndexBy(data, DataKey).value.keys[i])
  {
    var d := IndexBy(data, DataKey).value;
    IndexByKeys(data, DataKey);
    var ks := KeysOf(data, DataKey);
    forall i | 0 <= i < |d.keys| ensures Hashable(d.keys[i]) {
      assert d.keys[i] in ks;
    }
  }

  /** Every entry of the dict is stored under the key its own item gives. */
  lemma IndexByEntryKeys(items: seq<Json>, keyOf: Json -> Result<Json, Error>)
    requires IndexBy(items, keyOf).Ok?
    ensures var d := IndexBy(items, keyOf).value;
      forall k :: k in d.entries ==> keyOf(d.entries[k]) == Ok(k)
  {
    IndexByEntries(items, keyOf);
    var d := IndexBy(items, keyOf).value;
    var ks := KeysOf(items, keyOf);
    forall k | k in d.entries ensures keyOf(d.entries[k]) == Ok(k) {
      var i :| LastWithKey(items, ks, i, k) && d.entries[k] == items[i];
    }
  }

  /** The two dicts main() builds: found users are stored under their "id", errors under their
      "resource_id", or under "Unknown" when they have none. */
  lemma PartitionKeys(resp: Json)
    requires Partition(resp).Ok?
    ensures var found := Partition(resp).value.0;
      forall k :: k in found.entries ==> found.entries[k].Obj? && "id" in found.entries[k].fields && found.entries[k].fields["id"] == k
    ensures var failed := Partition(resp).value.1;
      forall k :: k in failed.entries ==>
        (&& failed.entries[k].Obj?
         && k == (if "resource_id" in failed.entries[k].fields then failed.entries[k].fields["resource_id"] else Str("Unknown")))
  {
    IndexByEntryKeys(Entries(resp, "data", TypeError).value, DataKey);
    IndexByEntryKeys(Entries(resp, "errors", AttributeError).value, ErrorKey);
  }

  /** A single item is stored under its key. */
  lemma IndexByOne(item: Json, keyOf: Json -> Result<Json, Error>)
    requires keyOf(item).Ok?
    ensures IndexBy([item], keyOf) == Ok(ODict([keyOf(item).value], map[keyOf(item).value := item]))
  {
    assert [item][..0] == [];
    assert [] + [keyOf(item).value] == [keyOf(item).value];
  }

  /** What the two dicts hold, for any reply main() can partition: the found users are keyed by the
      distinct ids of reply["data"] in the order they first appear, each holding the last user with
      that id; the errors likewise, keyed by resource id (or "Unknown") over reply["errors"]. */
  lemma PartitionContents(resp: Json)
    requires Partition(resp).Ok?
    ensures var users, found := Entries(resp, "data", TypeError).value, Partition(resp).value.0;
      && found.keys == Dedup(KeysOf(users, DataKey))
      && forall k :: k in found.entries ==>
           exists i :: LastWithKey(users, KeysOf(users, DataKey), i, k) && found.entries[k] == users[i]
    ensures var errs, failed := Entries(resp, "errors", AttributeError).value, Partition(resp).value.1;
      && failed.keys == Dedup(KeysOf(errs, ErrorKey))
      && forall k :: k in failed.entries ==>
           exists i :: LastWithKey(errs, KeysOf(errs, ErrorKey), i, k) && failed.entries[k] == errs[i]
  {
    var users := Entries(resp, "data", TypeError).value;
    var errs := Entries(resp, "errors", AttributeError).value;
    IndexByKeys(users, DataKey);
    IndexByEntries(users, DataKey);
    IndexByKeys(errs, ErrorKey);
    IndexByEntries(errs, ErrorKey);
  }

  /** A reply with one user with id "1" and one error for resource "2" partitions into that user
      under "1" and that error under "2". */
  lemma PartitionUserAndError(user: Json, err: Json)
    requires user.Obj? && user.fields == map["id" := Str("1"), "username" := Str("a")]
    requires err.Obj? && err.fields == map["resource_id" := Str("2")]
    ensures Partition(Obj(map["data" := Arr([user]), "errors" := Arr([err])]))
      == Ok((ODict([Str("1")], map[Str("1") := user]), ODict([Str("2")], map[Str("2") := err])))
  {
    var resp := Obj(map["data" := Arr([user]), "errors" := Arr([err])]);
    assert DataKey(user) == Ok(Str("1")) && ErrorKey(err) == Ok(Str("2"));
    IndexByOne(user, DataKey);
    IndexByOne(err, ErrorKey);
    assert Entries(resp, "data", TypeError) == Ok([user]);
    assert Entries(resp, "errors", AttributeError) == Ok([err]);
  }

  // ---------------------------------------------------------------- main

  /** One pass of the tweets loop: URL, parameters, request, and the logged reply. */
  function FetchOne(cfg: Parser, env: UserEnv, id: Json): (s: Step<()>)
    requires Hashable(id)
    ensures CreateTweetsUrl(cfg, id).Err? ==> s == Step([], Err(CreateTweetsUrl(cfg, id).error))
    ensures CreateTweetsUrl(cfg, id).Ok? && GetTweetsParams(cfg).Err? ==> s == Step([], Err(GetTweetsParams(cfg).error))
    ensures s.result.Ok? ==> |s.trace| == 2 && s.trace[1].Logged? && s.trace[1].kind == TweetsLog
  {
    match CreateTweetsUrl(cfg, id)
    case Err(e) => Step([], Err(e))
    case Ok(url) =>
      match GetTweetsParams(cfg)
      case Err(e) => Step([], Err(e))
      case Ok(params) =>
        var c := ConnectToEndpoint(env, url, params);
        if c.result.Err? then Step(c.trace, Err(c.result.error))
        else Step(c.trace + [Logged(TweetsLog, c.result.value)], Ok(()))
  }

  /** `for user_id in users_id`: one pass per id, in order, up to the first exception. */
  function FetchPosts(cfg: Parser, env: UserEnv, ids: seq<Json>): (s: Step<()>)
    requires forall i :: 0 <= i < |ids| ==> Hashable(ids[i])
    ensures s.result.Ok? <==> forall i :: 0 <= i < |ids| ==> FetchOne(cfg, env, ids[i]).result.Ok?
  {
    if ids == [] then Step([], Ok(()))
    else
      assert forall i :: 1 <= i < |ids| ==> ids[i] == ids[1..][i - 1];
      var one := FetchOne(cfg, env, ids[0]);
      if one.result.Err? then one
      else
        var rest := FetchPosts(cfg, env, ids[1..]);
        Step(one.trace + rest.trace, rest.result)
  }

  method FetchAll(cfg: Parser, env: UserEnv, ids: seq<Json>) returns (s: Step<()>)
    requires forall i :: 0 <= i < |ids| ==> Hashable(ids[i])
    ensures s == FetchPosts(cfg, env, ids)
  {
    var trace: Trace := [];
    var i := 0;
    while i < |ids|
      invariant i <= |ids|
      invariant FetchPosts(cfg, env, ids) == Step(trace + FetchPosts(cfg, env, ids[i..]).trace, FetchPosts(cfg, env, ids[i..]).result)
    {
      assert ids[i..][0] == ids[i] && ids[i..][1..] == ids[i + 1..];
      var one := FetchOne(cfg, env, ids[i]);
      if one.result.Err? {
        return Step(trace + one.trace, one.result);
      }
      assert trace + (one.trace + FetchPosts(cfg, env, ids[i + 1..]).trace)
          == (trace + one.trace) + FetchPosts(cfg, env, ids[i + 1..]).trace;
      trace := trace + one.trace;
      i := i + 1;
    }
    assert ids[i..] == [];
    assert trace + [] == trace;
    s := Step(trace, Ok(()));
  }

  /** The request for one user's tweets, once the configuration makes one. */
  function TweetsRequest(cfg: Parser, id: Json): Request
    requires Hashable(id) && CreateTweetsUrl(cfg, id).Ok? && GetTweetsParams(cfg).Ok?
  {
    Request(Get, CreateTweetsUrl(cfg, id).value, GetTweetsParams(cfg).value, None)
  }

  /** One pass sends its tweets request, and succeeds exactly when that request does. */
  lemma FetchOneRequest(cfg: Parser, env: UserEnv, id: Json)
    requires Hashable(id) && CreateTweetsUrl(cfg, id).Ok? && GetTweetsParams(cfg).Ok?
    ensures Requests(FetchOne(cfg, env, id).trace) == [TweetsRequest(cfg, id)]
    ensures FetchOne(cfg, env, id).result.Ok? <==> Call(env.serve, env.parse, TweetsRequest(cfg, id), 200).Ok?
  {
    var c := ConnectToEndpoint(env, CreateTweetsUrl(cfg, id).value, GetTweetsParams(cfg).value);
    if c.result.Ok? {
      var log := [Logged(TweetsLog, c.result.value)];
      RequestsAppend(c.trace, log);
      assert log[1..] == [];
    }
  }

  /** The tweets requests for ids, in order. */
  function TweetsRequests(cfg: Parser, ids: seq<Json>): (reqs: seq<Request>)
    requires forall i :: 0 <= i < |ids| ==> Hashable(ids[i]) && CreateTweetsUrl(cfg, ids[i]).Ok?
    requires GetTweetsParams(cfg).Ok?
    ensures |reqs| == |ids| && forall i :: 0 <= i < |ids| ==> reqs[i] == TweetsRequest(cfg, ids[i])
  {
    seq(|ids|, i requires 0 <= i < |ids| => TweetsRequest(cfg, ids[i]))
  }

  /** The tweets loop succeeds exactly when every tweets request does. */
  lemma {:induction false} FetchPostsSucceeds(cfg: Parser, env: UserEnv, ids: seq<Json>)
    requires forall i :: 0 <= i < |ids| ==> Hashable(ids[i]) && CreateTweetsUrl(cfg, ids[i]).Ok?
    requires GetTweetsParams(cfg).Ok?
    ensures FetchPosts(cfg, env, ids).result.Ok? <==> forall i :: 0 <= i < |ids| ==> Call(env.serve, env.parse, TweetsRequest(cfg, ids[i]), 200).Ok?
  {
    if ids != [] {
      FetchOneRequest(cfg, env, ids[0]);
      var rest := ids[1..];
      assert forall i :: 0 <= i < |rest| ==> rest[i] == ids[i + 1];
      FetchPostsSucceeds(cfg, env, rest);
    }
  }

  /** After a pass that succeeds, the loop's requests are that pass's request and the rest's. */
  lemma FetchPostsRequestsCons(cfg: Parser, env: UserEnv, ids: seq<Json>)
    requires |ids| > 0
    requires forall i :: 0 <= i < |ids| ==> Hashable(ids[i]) && CreateTweetsUrl(cfg, ids[i]).Ok?
    requires GetTweetsParams(cfg).Ok?
    requires FetchOne(cfg, env, ids[0]).result.Ok?
    ensures Requests(FetchPosts(cfg, env, ids).trace) == [TweetsRequest(cfg, ids[0])] + Requests(FetchPosts(cfg, env, ids[1..]).trace)
    ensures FetchPosts(cfg, env, ids).result == FetchPosts(cfg, env, ids[1..]).result
    ensures TweetsRequests(cfg, ids) == [TweetsRequest(cfg, ids[0])] + TweetsRequests(cfg, ids[1..])
  {
    FetchOneRequest(cfg, env, ids[0]);
    RequestsAppend(FetchOne(cfg, env, ids[0]).trace, FetchPosts(cfg, env, ids[1..]).trace);
  }

  /** The tweets loop sends one request per id, in order, when it returns normally. */
  lemma {:induction false} FetchPostsRequests(cfg: Parser, env: UserEnv, ids: seq<Json>)
    requires forall i :: 0 <= i < |ids| ==> Hashable(ids[i]) && CreateTweetsUrl(cfg, ids[i]).Ok?
    requires GetTweetsParams(cfg).Ok?
    ensures FetchPosts(cfg, env, ids).result.Ok? ==> Requests(FetchPosts(cfg, env, ids).trace) == TweetsRequests(cfg, ids)
  {
    if ids != [] && FetchOne(cfg, env, ids[0]).result.Ok? {
      FetchPostsRequestsCons(cfg, env, ids);
      FetchPostsRequests(cfg, env, ids[1..]);
    }
  }

  /** Whatever happens, the tweets loop's requests are the first tweets requests for the ids, in order. */
  lemma {:induction false} FetchPostsPrefix(cfg: Parser, env: UserEnv, ids: seq<Json>)
    requires forall i :: 0 <= i < |ids| ==> Hashable(ids[i]) && CreateTweetsUrl(cfg, ids[i]).Ok?
    requires GetTweetsParams(cfg).Ok?
    ensures Requests(FetchPosts(cfg, env, ids).trace) <= TweetsRequests(cfg, ids)
  {
    if ids != [] {
      FetchOneRequest(cfg, env, ids[0]);
      if FetchOne(cfg, env, ids[0]).result.Ok? {
        FetchPostsRequestsCons(cfg, env, ids);
        FetchPostsPrefix(cfg, env, ids[1..]);
      }
    }
  }

  /** A tweets loop that raises has sent at least one request, and the last one it sent failed. */
  lemma {:induction false} FetchPostsStopsAtFailure(cfg: Parser, env: UserEnv, ids: seq<Json>)
    requires forall i :: 0 <= i < |ids| ==> Hashable(ids[i]) && CreateTweetsUrl(cfg, ids[i]).Ok?
    requires GetTweetsParams(cfg).Ok?
    requires FetchPosts(cfg, env, ids).result.Err?
    ensures var reqs := Requests(FetchPosts(cfg, env, ids).trace);
      1 <= |reqs| <= |ids| && !Call(env.serve, env.parse, reqs[|reqs| - 1], 200).Ok?
  {
    if FetchOne(cfg, env, ids[0]).result.Ok? {
      var rest := ids[1..];
      RestUsable(cfg, ids);
      FetchPostsRequestsCons(cfg, env, ids);
      FetchPostsStopsAtFailure(cfg, env, rest);
      LastOfCons(TweetsRequest(cfg, ids[0]), Requests(FetchPosts(cfg, env, rest).trace), Requests(FetchPosts(cfg, env, ids).trace));
    } else {
      FailureAtFirstPass(cfg, env, ids);
    }
  }

  /** A loop whose first pass raises has sent exactly that pass's request, which failed. */
  lemma FailureAtFirstPass(cfg: Parser, env: UserEnv, ids: seq<Json>)
    requires |ids| > 0
    requires forall i :: 0 <= i < |ids| ==> Hashable(ids[i]) && CreateTweetsUrl(cfg, ids[i]).Ok?
    requires GetTweetsParams(cfg).Ok?
    requires FetchOne(cfg, env, ids[0]).result.Err?
    ensures var reqs := Requests(FetchPosts(cfg, env, ids).trace);
      reqs == [TweetsRequest(cfg, ids[0])] && !Call(env.serve, env.parse, reqs[0], 200).Ok?
  {
    FetchOneRequest(cfg, env, ids[0]);
    assert FetchPosts(cfg, env, ids) == FetchOne(cfg, env, ids[0]);
  }

  /** The ids after the first give tweets URLs when all of them do. */
  lemma RestUsable(cfg: Parser, ids: seq<Json>)
    requires |ids| > 0
    requires forall i :: 0 <= i < |ids| ==> Hashable(ids[i]) && CreateTweetsUrl(cfg, ids[i]).Ok?
    ensures forall i :: 0 <= i < |ids[1..]| ==> Hashable(ids[1..][i]) && CreateTweetsUrl(cfg, ids[1..][i]).Ok?
  {
    forall i | 0 <= i < |ids[1..]| ensures Hashable(ids[1..][i]) && CreateTweetsUrl(cfg, ids[1..][i]).Ok? {
      assert ids[1..][i] == ids[i + 1];
    }
  }

  /** Prepending a request keeps the last one. */
  lemma LastOfCons(r: Request, tail: seq<Request>, reqs: seq<Request>)
    requires reqs == [r] + tail && |tail| >= 1
    ensures |reqs| == |tail| + 1 && reqs[|reqs| - 1] == tail[|tail| - 1]
  {
  }

  /** The two dicts main() builds and logs from the users reply. */
  function Partition(resp: Json): (r: Result<(ODict<Json, Json>, ODict<Json, Json>), Error>)
    ensures r.Ok? ==> r.value.0.Valid() && r.value.1.Valid()
    ensures !resp.Obj? ==> r == Err(AttributeError)
    ensures resp.Obj? && "data" !in resp.fields && "errors" !in resp.fields ==> r == Ok((Empty(), Empty()))
    ensures r.Ok? <==>
      (&& Entries(resp, "data", TypeError).Ok? && IndexBy(Entries(resp, "data", TypeError).value, DataKey).Ok?
       && Entries(resp, "errors", AttributeError).Ok? && IndexBy(Entries(resp, "errors", AttributeError).value, ErrorKey).Ok?)
  {
    var data :- Entries(resp, "data", TypeError);
    var found :- IndexBy(data, DataKey);
    var errors :- Entries(resp, "errors", AttributeError);
    var failed :- IndexBy(errors, ErrorKey);
    Ok((found, failed))
  }

  /** main(): look the users up, partition the reply and log both dicts, then fetch every found
      user's tweets. */
  function LookupAndFetchOutcome(cfg: Parser, env: UserEnv): (s: Step<()>)
    ensures CreateUsersUrl(cfg, env).Err? ==> s == Step([], Err(CreateUsersUrl(cfg, env).error))
    ensures CreateUsersUrl(cfg, env).Ok? && GetUsersParams(cfg).Err? ==> s == Step([], Err(GetUsersParams(cfg).error))
    ensures CreateUsersUrl(cfg, env).Ok? && GetUsersParams(cfg).Ok? ==>
      var req := Request(Get, CreateUsersUrl(cfg, env).value, GetUsersParams(cfg).value, None);
      |s.trace| >= 1 && s.trace[0] == Sent(req)
        && (Call(env.serve, env.parse, req, 200).Err? ==> s == Step([Sent(req)], Err(Call(env.serve, env.parse, req, 200).error)))
  {
    match CreateUsersUrl(cfg, env)
    case Err(e) => Step([], Err(e))
    case Ok(url) =>
      match GetUsersParams(cfg)
      case Err(e) => Step([], Err(e))
      case Ok(params) =>
        var c := ConnectToEndpoint(env, url, params);
        if c.result.Err? then Step(c.trace, Err(c.result.error))
        else match Partition(c.result.value)
          case Err(e) => Step(c.trace, Err(e))
          case Ok((found, failed)) =>
            FoundKeysHashable(Entries(c.result.value, "data", TypeError).value);
            var logs := [LoggedDict(UsersIdLog, found), LoggedDict(ErrorDataLog, failed)];
            var f := FetchPosts(cfg, env, found.keys);
            Step(c.trace + logs + f.trace, f.result)
  }

  method LookupAndFetch(cfg: Parser, env: UserEnv) returns (s: Step<()>)
    ensures s == LookupAndFetchOutcome(cfg, env)
  {
    var url := CreateUsersUrl(cfg, env);
    if url.Err? {
      return Step([], Err(url.error));
    }
    var params := GetUsersParams(cfg);
    if params.Err? {
      return Step([], Err(params.error));
    }
    var c := ConnectToEndpoint(env, url.value, params.value);
    if c.result.Err? {
      return Step(c.trace, Err(c.result.error));
    }
    var resp := c.result.value;
    var data := Entries(resp, "data", TypeError);
    if data.Err? {
      return Step(c.trace, Err(data.error));
    }
    var found := IndexItems(data.value, DataKey);
    if found.Err? {
      return Step(c.trace, Err(found.error));
    }
    var errors := Entries(resp, "errors", AttributeError);
    if errors.Err? {
      return Step(c.trace, Err(errors.error));
    }
    var failed := IndexItems(errors.value, ErrorKey);
    if failed.Err? {
      return Step(c.trace, Err(failed.error));
    }
    FoundKeysHashable(data.value);
    var logs := [LoggedDict(UsersIdLog, found.value), LoggedDict(ErrorDataLog, failed.value)];
    var f := FetchAll(cfg, env, found.value.keys);
    s := Step(c.trace + logs + f.trace, f.result);
  }

  /** A users reply that partitions: main() sends the users request, logs the two dicts, and then
      runs the tweets loop over the found ids in dict order. */
  lemma LookupThenFetch(cfg: Parser, env: UserEnv)
    requires CreateUsersUrl(cfg, env).Ok? && GetUsersParams(cfg).Ok?
    requires var req := Request(Get, CreateUsersUrl(cfg, env).value, GetUsersParams(cfg).value, None);
      Call(env.serve, env.parse, req, 200).Ok? && Partition(Call(env.serve, env.parse, req, 200).value).Ok?
    ensures var req := Request(Get, CreateUsersUrl(cfg, env).value, GetUsersParams(cfg).value, None);
      var found := Partition(Call(env.serve, env.parse, req, 200).value).value.0;
      (forall i :: 0 <= i < |found.keys| ==> Hashable(found.keys[i]))
      && Requests(LookupAndFetchOutcome(cfg, env).trace) == [req] + Requests(FetchPosts(cfg, env, found.keys).trace)
      && LookupAndFetchOutcome(cfg, env).result == FetchPosts(cfg, env, found.keys).result
  {
    var req := Request(Get, CreateUsersUrl(cfg, env).value, GetUsersParams(cfg).value, None);
    var resp := Call(env.serve, env.parse, req, 200).value;
    var p := Partition(resp).value;
    FoundKeysHashable(Entries(resp, "data", TypeError).value);
    var c := ConnectToEndpoint(env, CreateUsersUrl(cfg, env).value, GetUsersParams(cfg).value);
    var logs := [LoggedDict(UsersIdLog, p.0), LoggedDict(ErrorDataLog, p.1)];
    var f := FetchPosts(cfg, env, p.0.keys);
    assert LookupAndFetchOutcome(cfg, env) == Step(c.trace + logs + f.trace, f.result);
    RequestsAppend(c.trace, logs);
    RequestsAppend(c.trace + logs, f.trace);
    assert Requests(logs) == [] by {
      assert logs[1..][1..] == [];
    }
  }

  /** A reply with only a list of users partitions into the users indexed by id, in first-seen
      order, and no errors. */
  lemma PartitionUsers(users: seq<Json>)
    requires forall i :: 0 <= i < |users| ==> DataKey(users[i]).Ok?
    ensures IndexBy(users, DataKey).Ok?
    ensures IndexBy(users, DataKey).value.keys == Dedup(KeysOf(users, DataKey))
    ensures Partition(Obj(map["data" := Arr(users)])) == Ok((IndexBy(users, DataKey).value, Empty()))
  {
    IndexByKeys(users, DataKey);
    var resp := Obj(map["data" := Arr(users)]);
    assert Entries(resp, "errors", AttributeError) == Ok([]);
    assert IndexBy([], ErrorKey) == Ok(Empty());
  }

  /** A users reply that main() can partition, whatever errors it also carries: main() sends the
      users request and then one tweets request per distinct id of reply["data"], in the order the
      ids first appear, all of them when it returns normally. */
  lemma OneFetchPerUser(cfg: Parser, env: UserEnv, resp: Json)
    requires CreateUsersUrl(cfg, env).Ok? && GetUsersParams(cfg).Ok?
    requires var req := Request(Get, CreateUsersUrl(cfg, env).value, GetUsersParams(cfg).value, None);
      Call(env.serve, env.parse, req, 200) == Ok(resp)
    requires Partition(resp).Ok?
    requires GetTweetsParams(cfg).Ok?
    requires var users := Entries(resp, "data", TypeError).value;
      forall i :: 0 <= i < |users| ==> CreateTweetsUrl(cfg, DataKey(users[i]).value).Ok?
    ensures var users := Entries(resp, "data", TypeError).value;
      var ids := Dedup(KeysOf(users, DataKey));
      && (forall i :: 0 <= i < |ids| ==> Hashable(ids[i]) && CreateTweetsUrl(cfg, ids[i]).Ok?)
      && var reqs := Requests(LookupAndFetchOutcome(cfg, env).trace);
      && |reqs| >= 1 && reqs[0] == Request(Get, CreateUsersUrl(cfg, env).value, GetUsersParams(cfg).value, None)
      && reqs[1..] <= TweetsRequests(cfg, ids)
      && (LookupAndFetchOutcome(cfg, env).result.Ok? ==> reqs[1..] == TweetsRequests(cfg, ids))
  {
    var users := Entries(resp, "data", TypeError).value;
    PartitionContents(resp);
    var ids := Dedup(KeysOf(users, DataKey));
    UserIdsUsable(cfg, users);
    LookupThenFetch(cfg, env);
    FetchPostsPrefix(cfg, env, ids);
    FetchPostsRequests(cfg, env, ids);
  }

  /** The distinct ids of users that all give a tweets URL give one each. */
  lemma UserIdsUsable(cfg: Parser, users: seq<Json>)
    requires forall i :: 0 <= i < |users| ==> DataKey(users[i]).Ok?
    requires forall i :: 0 <= i < |users| ==> CreateTweetsUrl(cfg, DataKey(users[i]).value).Ok?
    ensures var ids := Dedup(KeysOf(users, DataKey));
      forall i :: 0 <= i < |ids| ==> Hashable(ids[i]) && CreateTweetsUrl(cfg, ids[i]).Ok?
  {
    var ids := Dedup(KeysOf(users, DataKey));
    var ks := KeysOf(users, DataKey);
    forall i | 0 <= i < |ids| ensures Hashable(ids[i]) && CreateTweetsUrl(cfg, ids[i]).Ok? {
      assert ids[i] in ks;
      var j :| 0 <= j < |users| && ks[j] == ids[i];
    }
  }

  /** A reply with an error object and no "data" fetches nothing: the error is logged under its
      resource id, or under "Unknown" when it has none. */
  lemma ErrorsOnlyFetchNothing(cfg: Parser, env: UserEnv, err: Json)
    requires CreateUsersUrl(cfg, env).Ok? && GetUsersParams(cfg).Ok?
    requires var req := Request(Get, CreateUsersUrl(cfg, env).value, GetUsersParams(cfg).value, None);
      Call(env.serve, env.parse, req, 200) == Ok(Obj(map["errors" := Arr([err])]))
    requires err.Obj? && "resource_id" !in err.fields
    ensures var req := Request(Get, CreateUsersUrl(cfg, env).value, GetUsersParams(cfg).value, None);
      LookupAndFetchOutcome(cfg, env) == Step([Sent(req), LoggedDict(UsersIdLog, Empty()),
        LoggedDict(ErrorDataLog, ODict([Str("Unknown")], map[Str("Unknown") := err]))], Ok(()))
  {
    var resp := Obj(map["errors" := Arr([err])]);
    assert Entries(resp, "data", TypeError) == Ok([]);
    assert IndexBy([], DataKey) == Ok(Empty());
    var failed := ODict([Str("Unknown")], map[Str("Unknown") := err]);
    assert ErrorKey(err) == Ok(Str("Unknown"));
    IndexByOne(err, ErrorKey);
    assert Entries(resp, "errors", AttributeError) == Ok([err]);
    assert Partition(resp) == Ok((Empty(), failed));
    var req := Request(Get, CreateUsersUrl(cfg, env).value, GetUsersParams(cfg).value, None);
    var logs := [LoggedDict(UsersIdLog, Empty()), LoggedDict(ErrorDataLog, failed)];
    assert LookupAndFetchOutcome(cfg, env) == Step([Sent(req)] + logs + [], Ok(()));
    assert [Sent(req)] + logs + [] == [Sent(req), LoggedDict(UsersIdLog, Empty()), LoggedDict(ErrorDataLog, failed)];
  }

  /** Two users with the same id: the later object is the one kept, under one key. */
  lemma DuplicateIdKeepsLast(a: Json, b: Json)
    requires a.Obj? && b.Obj? && "id" in a.fields && "id" in b.fields && a.fields["id"] == b.fields["id"] == Str("7")
    ensures IndexBy([a, b], DataKey) == Ok(ODict([Str("7")], map[Str("7") := b]))
  {
    assert [a, b][..1] == [a] && [a][..0] == [];
    assert [] + [Str("7")] == [Str("7")];
    assert IndexBy([a], DataKey) == Ok(ODict([Str("7")], map[Str("7") := a]));
    assert map[Str("7") := a][Str("7") := b] == map[Str("7") := b];
  }

  // ---------------------------------------------------------------- create_thread

  /** The except clauses of create_thread's loop: request and status errors retry at once, any
      other exception is logged and breaks the loop; the handlers themselves do not raise. */
  function UserAction(result: Result<(), Error>): (a: Action)
    ensures !a.Escape?
    ensures a.Retry? ==> a.sleep == None
  {
    match result
    case Ok(_) => Break
    case Err(RequestError) => Retry(None)
    case Err(HTTPStatusError(_, _)) => Retry(None)
    case Err(e) => Stop(e)
  }

  /** Every HTTP status error retries, a rate limit (429) included, and without a sleep. */
  lemma UserRetriesOn(result: Result<(), Error>)
    ensures UserAction(result) == Break <==> result.Ok?
    ensures UserAction(result).Retry? <==> result.Err? && (result.error.RequestError? || result.error.HTTPStatusError?)
    ensures UserAction(result).Stop? ==> UserAction(result).error == result.error
  {
  }

  function UserAttempt(cfg: Parser, env: UserEnv): (a: Attempt)
    ensures !a.action.Escape? && !(a.action.Retry? && a.action.sleep.Some?)
  {
    var s := LookupAndFetchOutcome(cfg, env);
    Attempt(s.trace, UserAction(s.result))
  }

  function UserAttempts(cfg: Parser, envs: seq<UserEnv>): (a: seq<Attempt>)
    ensures |a| == |envs| && forall i :: 0 <= i < |envs| ==> a[i] == UserAttempt(cfg, envs[i])
  {
    seq(|envs|, i requires 0 <= i < |envs| => UserAttempt(cfg, envs[i]))
  }

  const LogFileKey := "user_tweet_log_file"

  /** create_thread: the log file handler needs config["DEFAULT"]["user_tweet_log_file"] as a path
      before the loop starts; then the loop runs one attempt per environment. */
  function CreateThreadOutcome(cfg: Parser, envs: seq<UserEnv>): (r: Report)
    ensures r.attempts <= |envs|
    ensures Lookup(cfg, DefaultSection, LogFileKey).Err? ==> r == Report(0, [], Escaped(Lookup(cfg, DefaultSection, LogFileKey).error))
    ensures r.ending == Retrying ==> r.attempts == |envs|
  {
    match Lookup(cfg, DefaultSection, LogFileKey)
    case Err(e) => Report(0, [], Escaped(e))
    case Ok(Items(_)) => Report(0, [], Escaped(TypeError))
    case Ok(Text(_)) => Run(UserAttempts(cfg, envs))
  }

  method CreateThread(cfg: Parser, envs: seq<UserEnv>) returns (r: Report)
    ensures r == CreateThreadOutcome(cfg, envs)
  {
    var path := Lookup(cfg, DefaultSection, LogFileKey);
    if path.Err? {
      return Report(0, [], Escaped(path.error));
    }
    if path.value.Items? {
      return Report(0, [], Escaped(TypeError));
    }
    ghost var attempts := UserAttempts(cfg, envs);
    var trace: Trace := [];
    var i := 0;
    while i < |envs|
      invariant i <= |envs|
      invariant Run(attempts) == Shift(i, trace, Run(attempts[i..]))
    {
      var s := LookupAndFetch(cfg, envs[i]);
      var action := UserAction(s.result);
      if !action.Retry? {
        RunFinalStep(attempts, i, trace);
        return Report(i + 1, trace + s.trace, EndingOf(action));
      }
      RunRetryStep(attempts, i, trace);
      trace := trace + s.trace + SleepEvents(action);
      i := i + 1;
    }
    assert attempts[i..] == [];
    assert trace + [] == trace;
    r := Report(i, trace, Retrying);
  }

  /** Once the log file is set up, no exception leaves the user loop, so log_wrapper logs nothing,
      and the loop never sleeps. */
  lemma {:induction false} UserThreadNeverEscapes(cfg: Parser, envs: seq<UserEnv>, loggerKwarg: bool)
    requires Lookup(cfg, DefaultSection, LogFileKey).Ok? && Lookup(cfg, DefaultSection, LogFileKey).value.Text?
    ensures !CreateThreadOutcome(cfg, envs).ending.Escaped?
    ensures CreateThreadOutcome(cfg, envs).ending != Retrying ==>
      LogWrapper(ThreadCall(CreateThreadOutcome(cfg, envs)), loggerKwarg) == Wrapped(Some(()), None)
    ensures TotalSleep(UserAttempts(cfg, envs)) == 0.0
  {
    var attempts := UserAttempts(cfg, envs);
    RunStopsAtFirstFinal(attempts);
    NoSleeps(attempts);
  }

  lemma {:induction false} NoSleeps(attempts: seq<Attempt>)
    requires forall i :: 0 <= i < |attempts| ==> !(attempts[i].action.Retry? && attempts[i].action.sleep.Some?)
    ensures TotalSleep(attempts) == 0.0
  {
    if attempts != [] {
      NoSleeps(attempts[1..]);
    }
  }
}
