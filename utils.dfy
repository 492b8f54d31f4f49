/** src/utils.py: the RawConfigParser subclass whose options() can skip the DEFAULT section, the
    SectionProxy reads the core performs on it, and the exception-swallowing log_wrapper. */
module Utils {
  import opened Wrappers
  import opened Errors
  import opened OrderedDicts

  /** A stored option value: text, as read from a file, or a list, as a program may set it. */
  datatype Value = Text(s: string) | Items(xs: seq<string>)

  const DefaultSection := "DEFAULT"

  /** RawConfigParser state: the DEFAULT section's options and the named sections, in insertion
      order. Option names are stored already lower-cased by optionxform. */
  datatype Parser = Parser(defaults: ODict<string, Value>, sections: ODict<string, ODict<string, Value>>) {
    predicate Valid() {
      && defaults.Valid()
      && sections.Valid()
      && (forall s :: s in sections.entries ==> sections.entries[s].Valid())
      && DefaultSection !in sections.entries
    }
  }

  /** The keys of ks that m does not hold, in the order of ks. */
  function KeysNotIn(ks: seq<string>, m: map<string, Value>): (r: seq<string>)
    ensures forall k :: k in r <==> k in ks && k !in m
  {
    if ks == [] then [] else (if ks[0] in m then [] else [ks[0]]) + KeysNotIn(ks[1..], m)
  }

  /** The filter works key by key: on two runs of keys it keeps those of each, in order. */
  lemma {:induction false} KeysNotInAppend(a: seq<string>, b: seq<string>, m: map<string, Value>)
    ensures KeysNotIn(a + b, m) == KeysNotIn(a, m) + KeysNotIn(b, m)
  {
    if a != [] {
      var head := if a[0] in m then [] else [a[0]];
      assert (a + b)[0] == a[0] && (a + b)[1..] == a[1..] + b;
      KeysNotInAppend(a[1..], b, m);
      assert KeysNotIn(a + b, m) == head + (KeysNotIn(a[1..], m) + KeysNotIn(b, m));
      assert head + (KeysNotIn(a[1..], m) + KeysNotIn(b, m)) == (head + KeysNotIn(a[1..], m)) + KeysNotIn(b, m);
    } else {
      assert a + b == b;
    }
  }

  /** A single key is kept iff m does not hold it. */
  lemma KeysNotInOne(k: string, m: map<string, Value>)
    ensures KeysNotIn([k], m) == (if k in m then [] else [k])
  {
    assert [k][1..] == [];
  }

  /** options(section) of configparser's own RawConfigParser: the section's keys, then the DEFAULT
      keys it does not override (dict.update keeps the position of a key already present). */
  function InheritedOptions(p: Parser, section: string): (r: Result<seq<string>, Error>)
    ensures r.Err? <==> section !in p.sections.entries
    ensures r.Err? ==> r.error == NoSectionError(section)
    ensures r.Ok? ==> forall k :: k in r.value <==>
      (k in p.sections.entries[section].keys || (k in p.defaults.keys && k !in p.sections.entries[section].entries))
  {
    if section !in p.sections.entries then Err(NoSectionError(section))
    else
      var own := p.sections.entries[section];
      Ok(own.keys + KeysNotIn(p.defaults.keys, own.entries))
  }

  /** RawConfigParser.options(section, no_defaults): with no_defaults, the keys stored in the section
      itself, in insertion order, or NoSectionError; otherwise the inherited behaviour. */
  function Options(p: Parser, section: string, noDefaults: bool): (r: Result<seq<string>, Error>)
    ensures r.Err? <==> section !in p.sections.entries
    ensures r.Err? ==> r.error == NoSectionError(section)
    ensures r.Ok? && noDefaults ==> r.value == p.sections.entries[section].keys
    ensures !noDefaults ==> r == InheritedOptions(p, section)
  {
    if noDefaults then
      if section in p.sections.entries then Ok(p.sections.entries[section].keys)
      else Err(NoSectionError(section))
    else InheritedOptions(p, section)
  }

  /** With no_defaults, options() lists every key stored in the section once, and no key that only
      the DEFAULT section holds. */
  lemma OptionsWithoutDefaults(p: Parser, section: string)
    requires p.Valid() && section in p.sections.entries
    ensures Options(p, section, true).Ok?
    ensures var ks := Options(p, section, true).value;
      && Distinct(ks)
      && (forall k :: k in ks <==> k in p.sections.entries[section].entries)
      && (forall k :: k in p.defaults.entries && k !in p.sections.entries[section].entries ==> k !in ks)
  {
  }

  lemma {:induction false} KeysNotInDistinct(ks: seq<string>, m: map<string, Value>)
    requires Distinct(ks)
    ensures Distinct(KeysNotIn(ks, m))
  {
    if ks != [] {
      KeysNotInDistinct(ks[1..], m);
      var head := if ks[0] in m then [] else [ks[0]];
      var rest := KeysNotIn(ks[1..], m);
      forall i | 0 <= i < |ks[1..]| ensures ks[1..][i] != ks[0] {
        assert ks[1..][i] == ks[i + 1];
      }
      assert ks[0] !in ks[1..];
      assert ks[0] !in rest;
      var r := head + rest;
      forall i, j | 0 <= i < j < |r| ensures r[i] != r[j] {
        assert r[j] == rest[j - |head|] && r[j] in rest;
        if i >= |head| {
          assert r[i] == rest[i - |head|];
        } else {
          assert r[i] == ks[0];
        }
      }
    }
  }

  /** Without no_defaults, options() lists the union of the section's keys and the DEFAULT keys,
      each once, the section's own keys first and in their order. */
  lemma InheritedOptionsDistinct(p: Parser, section: string)
    requires p.Valid() && section in p.sections.entries
    ensures InheritedOptions(p, section).Ok?
    ensures var ks := InheritedOptions(p, section).value;
      && Distinct(ks)
      && (forall k :: k in ks <==> k in p.sections.entries[section].entries || k in p.defaults.entries)
      && ks[..|p.sections.entries[section].keys|] == p.sections.entries[section].keys
      && ks[|p.sections.entries[section].keys|..] == KeysNotIn(p.defaults.keys, p.sections.entries[section].entries)
  {
    var own := p.sections.entries[section];
    KeysNotInDistinct(p.defaults.keys, own.entries);
    var ks := InheritedOptions(p, section).value;
    var tail := KeysNotIn(p.defaults.keys, own.entries);
    assert ks == own.keys + tail;
    assert own.Valid();
    forall i, j | 0 <= i < j < |ks| ensures ks[i] != ks[j] {
      if j < |own.keys| {
        assert ks[i] == own.keys[i] && ks[j] == own.keys[j];
        assert own.keys[i] != own.keys[j];
      } else if i >= |own.keys| {
        assert ks[i] == tail[i - |own.keys|] && ks[j] == tail[j - |own.keys|];
        assert tail[i - |own.keys|] != tail[j - |own.keys|];
      } else {
        assert ks[j] == tail[j - |own.keys|] && ks[j] in tail;
        assert ks[j] !in own.entries;
        assert ks[i] == own.keys[i];
        assert ks[i] in own.entries;
      }
    }
  }

  /** config[section][key]: the section's value, else the DEFAULT value; KeyError when the section
      is missing (naming the section) or neither holds the key (naming the key). */
  function Lookup(p: Parser, section: string, key: string): (r: Result<Value, Error>)
    ensures section != DefaultSection && section !in p.sections.entries ==> r == Err(KeyError(section))
    ensures section != DefaultSection && section in p.sections.entries && key in p.sections.entries[section].entries
      ==> r == Ok(p.sections.entries[section].entries[key])
    ensures (&& section != DefaultSection && section in p.sections.entries
             && key !in p.sections.entries[section].entries && key in p.defaults.entries)
      ==> r == Ok(p.defaults.entries[key])
    ensures section == DefaultSection && key in p.defaults.entries ==> r == Ok(p.defaults.entries[key])
    ensures r.Ok? <==>
      (if section == DefaultSection then key in p.defaults.entries
       else section in p.sections.entries && (key in p.sections.entries[section].entries || key in p.defaults.entries))
    ensures r.Err? && (section == DefaultSection || section in p.sections.entries) ==> r.error == KeyError(key)
  {
    if section == DefaultSection then
      if key in p.defaults.entries then Ok(p.defaults.entries[key]) else Err(KeyError(key))
    else if section !in p.sections.entries then Err(KeyError(section))
    else
      var own := p.sections.entries[section];
      if key in own.entries then Ok(own.entries[key])
      else if key in p.defaults.entries then Ok(p.defaults.entries[key])
      else Err(KeyError(key))
  }

  /** The keys `for key in config[section]` visits: the DEFAULT keys for the DEFAULT section, the
      inherited options() otherwise; every one of them can be looked up. */
  function SectionKeys(p: Parser, section: string): (r: Result<seq<string>, Error>)
    ensures r.Err? <==> section != DefaultSection && section !in p.sections.entries
    ensures r.Err? ==> r.error == KeyError(section)
    ensures section == DefaultSection ==> r == Ok(p.defaults.keys)
    ensures section != DefaultSection && section in p.sections.entries ==> r == InheritedOptions(p, section)
    ensures p.Valid() && r.Ok? ==> forall k :: k in r.value ==> Lookup(p, section, k).Ok?
  {
    if section == DefaultSection then Ok(p.defaults.keys)
    else if section !in p.sections.entries then Err(KeyError(section))
    else Options(p, section, false)
  }

  /** The outcome of calling a wrapped function. */
  datatype Outcome<T> = Returned(value: T) | Raised(error: Error)

  /** Where log_wrapper sends the exception: kwargs["logger"] when the caller passed one, otherwise
      the root logger of the logging module. */
  datatype Sink = KwargsLogger | RootLogger

  /** What the wrapper returns (None stands for Python's None) and what it logged. */
  datatype Wrapped<T> = Wrapped(result: Option<T>, logged: Option<(Sink, Error)>)

  /** log_wrapper(f)(...): a normal return passes through unchanged and logs nothing; an exception
      is logged and becomes None. */
  function LogWrapper<T>(call: Outcome<T>, loggerKwarg: bool): (w: Wrapped<T>)
    ensures call.Returned? ==> w.result == Some(call.value) && w.logged == None
    ensures call.Raised? ==> w.result == None
    ensures call.Raised? ==> w.logged == Some((if loggerKwarg then KwargsLogger else RootLogger, call.error))
  {
    match call
    case Returned(v) => Wrapped(Some(v), None)
    case Raised(e) => Wrapped(None, Some((if loggerKwarg then KwargsLogger else RootLogger, e)))
  }
}
