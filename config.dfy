/**
 * Configuration sections: `parse` walks the sections of an already-read INI
 * file, dispatches each on its `type` and stores the validated frontend and
 * backend sections in the module table `_CONFIG`, which the accessors read.
 */
module Config {
  import opened Common
  import PyText

  /** A stored configuration value: the strings as read, and the port as an integer. */
  datatype Value = Str(s: string) | Int(n: int)

  /** One section as the INI reader hands it over: key to raw string. */
  type Entries = map<string, string>

  /** The contents of `_CONFIG`: section name to its validated keys. */
  type Table = map<string, map<string, Value>>

  datatype Kind = FrontendKind | BackendKind | DatabaseKind

  /** The keys each kind of section must define, in the order they are checked. */
  function RequiredKeys(kind: Kind): (keys: seq<string>)
    ensures "port" in keys
  {
    match kind
    case FrontendKind =>
      ["type", "host", "port", "user", "secret", "backend", "packages", "pidfile", "templates", "static", "sitemap"]
    case BackendKind =>
      ["type", "host", "port", "user", "secret", "frontend", "packages", "pidfile"]
    case DatabaseKind =>
      ["engine", "host", "port", "username", "password"]
  }

  /** Why a configuration is invalid (the cause of InvalidConfiguration). */
  datatype Reason =
    | EmptyFile
    | NoType(section: string)
    | UnknownType(section: string, type_: string)
    | MissingKey(kind: Kind, key: string)
    | InvalidPort(kind: Kind, text: string)
    | MissingSection(name: string)

  /** What an accessor raises: InvalidConfiguration, or the KeyError of an absent key. */
  datatype Error = InvalidConfiguration(reason: Reason) | KeyError(key: string)

  // ---------------------------------------------------------------------------
  // One section

  /** The first key of `keys` that `entries` does not define. */
  function FirstMissing(keys: seq<string>, entries: Entries): (r: Option<string>)
    ensures r.None? <==> forall i :: 0 <= i < |keys| ==> keys[i] in entries
    ensures r.Some? ==>
      exists i :: 0 <= i < |keys| && keys[i] == r.value && r.value !in entries && (forall j :: 0 <= j < i ==> keys[j] in entries)
  {
    if keys == [] then None
    else if keys[0] !in entries then Some(keys[0])
    else
      var r := FirstMissing(keys[1..], entries);
      assert forall i :: 1 <= i < |keys| ==> keys[i] == keys[1..][i - 1];
      r
  }

  /** The table `tmp` the key loop builds: every key of `keys`, with its string. */
  function Collected(keys: seq<string>, entries: Entries): map<string, Value>
    requires forall i :: 0 <= i < |keys| ==> keys[i] in entries
  {
    if keys == [] then map[]
    else Collected(keys[..|keys| - 1], entries)[keys[|keys| - 1] := Str(entries[keys[|keys| - 1]])]
  }

  /** The collected table holds exactly the listed keys, each with its string from the section. */
  lemma {:induction false} CollectedContents(keys: seq<string>, entries: Entries)
    requires forall i :: 0 <= i < |keys| ==> keys[i] in entries
    ensures forall k :: k in Collected(keys, entries) <==> k in keys
    ensures forall k :: k in Collected(keys, entries) ==> k in entries && Collected(keys, entries)[k] == Str(entries[k])
    decreases |keys|
  {
    if keys != [] {
      var init := keys[..|keys| - 1];
      CollectedContents(init, entries);
      assert keys == init + [keys[|keys| - 1]];
    }
  }

  /**
   * What `parse_frontend`, `parse_backend` and `parse_database` make of a
   * section: the first missing required key, an invalid port, or the required
   * keys with their strings and the port as an integer.
   */
  function Validated(kind: Kind, entries: Entries): Result<map<string, Value>, Reason> {
    match FirstMissing(RequiredKeys(kind), entries)
    case Some(key) => Failure(MissingKey(kind, key))
    case None =>
      match PyText.ParseInt(entries["port"])
      case None => Failure(InvalidPort(kind, entries["port"]))
      case Some(port) =>
        Success(Collected(RequiredKeys(kind), entries)["port" := Int(port)])
  }

  /**
   * A validated section holds exactly the required keys (extra keys are
   * dropped), each with its string, except the port, which holds the integer
   * the port string parses to.
   */
  lemma ValidatedContents(kind: Kind, entries: Entries)
    requires Validated(kind, entries).Success?
    ensures var m := Validated(kind, entries).value;
      && (forall k :: k in m <==> k in RequiredKeys(kind))
      && PyText.ParseInt(entries["port"]).Some?
      && m["port"] == Int(PyText.ParseInt(entries["port"]).value)
      && forall k :: k in m && k != "port" ==> m[k] == Str(entries[k])
  {
    CollectedContents(RequiredKeys(kind), entries);
  }

  /** A section is rejected for its first missing key in list order, then for a port that is not an integer. */
  lemma ValidatedRejects(kind: Kind, entries: Entries)
    ensures (exists i :: 0 <= i < |RequiredKeys(kind)| && RequiredKeys(kind)[i] !in entries) ==>
      exists i :: 0 <= i < |RequiredKeys(kind)|
        && Validated(kind, entries) == Failure(MissingKey(kind, RequiredKeys(kind)[i]))
        && RequiredKeys(kind)[i] !in entries
        && forall j :: 0 <= j < i ==> RequiredKeys(kind)[j] in entries
    ensures (forall k :: k in RequiredKeys(kind) ==> k in entries) ==>
      (Validated(kind, entries).Failure? <==> PyText.ParseInt(entries["port"]).None?)
  {
    var keys := RequiredKeys(kind);
    if forall k :: k in keys ==> k in entries {
      assert forall i :: 0 <= i < |keys| ==> keys[i] in entries;
    }
  }

  /**
   * The key loop of the section parsers: builds the table of required keys,
   * stops at the first missing one, then converts the port.
   */
  method ParseSection(kind: Kind, entries: Entries) returns (r: Result<map<string, Value>, Reason>)
    ensures r == Validated(kind, entries)
  {
    var missing, tmp := CollectKeys(RequiredKeys(kind), entries);
    if missing.Some? {
      return Failure(MissingKey(kind, missing.value));
    }
    match PyText.ParseInt(entries["port"])
    case None =>
      return Failure(InvalidPort(kind, entries["port"]));
    case Some(port) =>
      return Success(tmp["port" := Int(port)]);
  }

  /** The loop over the required keys: stops at the first missing key, otherwise collects them all. */
  method CollectKeys(keys: seq<string>, entries: Entries) returns (missing: Option<string>, tmp: map<string, Value>)
    ensures missing == FirstMissing(keys, entries)
    ensures missing.None? ==> tmp == Collected(keys, entries)
  {
    tmp := map[];
    var i := 0;
    while i < |keys|
      invariant 0 <= i <= |keys|
      invariant forall j :: 0 <= j < i ==> keys[j] in entries
      invariant FirstMissing(keys, entries) == FirstMissing(keys[i..], entries)
      invariant tmp == Collected(keys[..i], entries)
    {
      var key := keys[i];
      if key !in entries {
        return Some(key), tmp;
      }
      assert keys[i..][1..] == keys[i + 1..];
      tmp := tmp[key := Str(entries[key])];
      i := i + 1;
      assert keys[..i][..i - 1] == keys[..i - 1];
    }
    assert keys[..i] == keys;
    return None, tmp;
  }

  // ---------------------------------------------------------------------------
  // The whole file

  /** What `parse` does with one section of the file. */
  datatype Step = Skip | Store(kind: Kind, contents: map<string, Value>) | Reject(reason: Reason)

  function SectionStep(name: string, entries: Entries): Step {
    if name == "DEFAULT" then Skip
    else if "type" !in entries then Reject(NoType(name))
    else if entries["type"] == "frontend" then
      match Validated(FrontendKind, entries)
      case Success(m) => Store(FrontendKind, m)
      case Failure(e) => Reject(e)
    else if entries["type"] == "backend" then
      match Validated(BackendKind, entries)
      case Success(m) => Store(BackendKind, m)
      case Failure(e) => Reject(e)
    else Reject(UnknownType(name, entries["type"]))
  }

  datatype Parsed = Parsed(outcome: Result<(), Reason>, table: Table)

  /** The section loop of `parse` from table `t`: stores each section in turn, stops at the first rejected one. */
  function ParseFrom(t: Table, sections: seq<(string, Entries)>): Parsed
    decreases |sections|
  {
    if sections == [] then Parsed(Success(()), t)
    else match SectionStep(sections[0].0, sections[0].1)
      case Skip => ParseFrom(t, sections[1..])
      case Store(_, m) => ParseFrom(t[sections[0].0 := m], sections[1..])
      case Reject(e) => Parsed(Failure(e), t)
  }

  /**
   * What iterating a file read by `configparser` yields: the DEFAULT section
   * first, then the file's own sections, every name once.
   */
  predicate WellFormedFile(sections: seq<(string, Entries)>) {
    && |sections| >= 1
    && sections[0].0 == "DEFAULT"
    && forall a, b :: 0 <= a < b < |sections| ==> sections[a].0 != sections[b].0
  }

  /** `parse`: a file holding only the DEFAULT section is rejected before any section is looked at. */
  function ParseSpec(t: Table, sections: seq<(string, Entries)>): Parsed
    requires WellFormedFile(sections)
  {
    if |sections| == 1 then Parsed(Failure(EmptyFile), t) else ParseFrom(t, sections)
  }

  /** The type of a section, if it has one. */
  function TypeOf(entries: Entries): Option<string> {
    if "type" in entries then Some(entries["type"]) else None
  }

  /**
   * `parse` succeeds only if every section but DEFAULT has type "frontend" or
   * "backend" and validates; in particular a section of type "database" (for
   * which `parse_database` exists) is always rejected.
   */
  lemma {:induction false} ParseAcceptsFrontendAndBackendOnly(t: Table, sections: seq<(string, Entries)>)
    ensures ParseFrom(t, sections).outcome.Success? <==>
      forall i :: 0 <= i < |sections| ==> !SectionStep(sections[i].0, sections[i].1).Reject?
    ensures ParseFrom(t, sections).outcome.Success? ==>
      forall i :: 0 <= i < |sections| && sections[i].0 != "DEFAULT" ==>
        TypeOf(sections[i].1) == Some("frontend") || TypeOf(sections[i].1) == Some("backend")
    decreases |sections|
  {
    if sections != [] {
      var s0 := SectionStep(sections[0].0, sections[0].1);
      match s0
      case Skip =>
        ParseAcceptsFrontendAndBackendOnly(t, sections[1..]);
        assert forall i :: 1 <= i < |sections| ==> sections[i] == sections[1..][i - 1];
      case Store(_, m) =>
        ParseAcceptsFrontendAndBackendOnly(t[sections[0].0 := m], sections[1..]);
        assert forall i :: 1 <= i < |sections| ==> sections[i] == sections[1..][i - 1];
      case Reject(e) =>
    }
  }

  /**
   * When `parse` rejects a section, the table is left exactly as the sections
   * before it made it: the rejected section is never written, and the sections
   * stored earlier remain.
   */
  lemma {:induction false} ParseFailureKeepsPrefix(t: Table, sections: seq<(string, Entries)>) returns (i: nat)
    requires ParseFrom(t, sections).outcome.Failure?
    ensures i < |sections|
    ensures SectionStep(sections[i].0, sections[i].1) == Reject(ParseFrom(t, sections).outcome.error)
    ensures ParseFrom(t, sections[..i]).outcome.Success?
    ensures ParseFrom(t, sections).table == ParseFrom(t, sections[..i]).table
    decreases |sections|
  {
    var s0 := SectionStep(sections[0].0, sections[0].1);
    match s0
    case Reject(e) =>
      i := 0;
    case Skip =>
      var j := ParseFailureKeepsPrefix(t, sections[1..]);
      i := j + 1;
      assert sections[..i][1..] == sections[1..][..j];
    case Store(_, m) =>
      var j := ParseFailureKeepsPrefix(t[sections[0].0 := m], sections[1..]);
      i := j + 1;
      assert sections[..i][1..] == sections[1..][..j];
  }

  /** `parse` only ever adds the names of the sections it read; everything else in the table is untouched. */
  lemma {:induction false} ParseTouchesOnlySectionNames(t: Table, sections: seq<(string, Entries)>)
    ensures forall k :: k in ParseFrom(t, sections).table ==>
      k in t || exists i :: 0 <= i < |sections| && sections[i].0 == k
    ensures forall k :: k in t && (forall i :: 0 <= i < |sections| ==> sections[i].0 != k) ==>
      k in ParseFrom(t, sections).table && ParseFrom(t, sections).table[k] == t[k]
    decreases |sections|
  {
    if sections != [] {
      var t' := match SectionStep(sections[0].0, sections[0].1)
        case Store(_, m) => t[sections[0].0 := m]
        case _ => t;
      ParseTouchesOnlySectionNames(t', sections[1..]);
      assert forall i :: 1 <= i < |sections| ==> sections[i] == sections[1..][i - 1];
    }
  }

  /**
   * After a successful `parse` of a file whose section names are distinct, each
   * non-DEFAULT section is stored under its own name with its validated keys.
   */
  lemma {:induction false} ParseStoresEachSection(t: Table, sections: seq<(string, Entries)>, i: nat)
    requires forall a, b :: 0 <= a < b < |sections| ==> sections[a].0 != sections[b].0
    requires ParseFrom(t, sections).outcome.Success?
    requires i < |sections| && sections[i].0 != "DEFAULT"
    ensures SectionStep(sections[i].0, sections[i].1).Store?
    ensures sections[i].0 in ParseFrom(t, sections).table
    ensures ParseFrom(t, sections).table[sections[i].0] == SectionStep(sections[i].0, sections[i].1).contents
    decreases |sections|
  {
    var s0 := SectionStep(sections[0].0, sections[0].1);
    var t' := if s0.Store? then t[sections[0].0 := s0.contents] else t;
    assert ParseFrom(t, sections) == ParseFrom(t', sections[1..]);
    if i == 0 {
      ParseTouchesOnlySectionNames(t', sections[1..]);
    } else {
      ParseStoresEachSection(t', sections[1..], i - 1);
    }
  }

  // ---------------------------------------------------------------------------
  // The accessors

  /** `_CONFIG.get(section)[key]` after checking that `section` is stored. */
  function SectionKey(t: Table, section: string, key: string): (r: Result<Value, Error>)
    ensures r.Success? <==> section in t && key in t[section]
    ensures section !in t ==> r == Failure(InvalidConfiguration(MissingSection(section)))
    ensures section in t && key !in t[section] ==> r == Failure(KeyError(key))
    ensures r.Success? ==> r.value == t[section][key]
  {
    if section !in t then Failure(InvalidConfiguration(MissingSection(section)))
    else if key !in t[section] then Failure(KeyError(key))
    else Success(t[section][key])
  }

  /**
   * The accessors look sections up by NAME: `frontend(key)` succeeds after a
   * successful `parse` from an empty table exactly when the file has a section
   * named "frontend", whatever the type of that section.
   */
  lemma FrontendNeedsSectionNamedFrontend(sections: seq<(string, Entries)>, key: string)
    requires forall a, b :: 0 <= a < b < |sections| ==> sections[a].0 != sections[b].0
    requires ParseFrom(map[], sections).outcome.Success?
    ensures SectionKey(ParseFrom(map[], sections).table, "frontend", key).Success? <==>
      exists i :: 0 <= i < |sections| && sections[i].0 == "frontend"
        && SectionStep(sections[i].0, sections[i].1).Store? && key in SectionStep(sections[i].0, sections[i].1).contents
  {
    if exists i :: 0 <= i < |sections| && sections[i].0 == "frontend" {
      var i :| 0 <= i < |sections| && sections[i].0 == "frontend";
      FrontendSectionFound(sections, i, key);
      forall j | 0 <= j < |sections| && sections[j].0 == "frontend"
        ensures j == i
      {
      }
    } else {
      FrontendSectionAbsent(sections, key);
    }
  }

  /** With a section named "frontend" in the file, `frontend(key)` finds exactly that section's keys. */
  lemma FrontendSectionFound(sections: seq<(string, Entries)>, i: nat, key: string)
    requires forall a, b :: 0 <= a < b < |sections| ==> sections[a].0 != sections[b].0
    requires ParseFrom(map[], sections).outcome.Success?
    requires i < |sections| && sections[i].0 == "frontend"
    ensures SectionStep(sections[i].0, sections[i].1).Store?
    ensures SectionKey(ParseFrom(map[], sections).table, "frontend", key).Success? <==>
      key in SectionStep(sections[i].0, sections[i].1).contents
  {
    ParseStoresEachSection(map[], sections, i);
  }

  /** Without a section named "frontend" in the file, `frontend(key)` fails. */
  lemma FrontendSectionAbsent(sections: seq<(string, Entries)>, key: string)
    requires forall i :: 0 <= i < |sections| ==> sections[i].0 != "frontend"
    ensures SectionKey(ParseFrom(map[], sections).table, "frontend", key).Failure?
  {
    ParseTouchesOnlySectionNames(map[], sections);
  }

  /** A section named DEFAULT is never stored: the table holds one exactly when it did before. */
  lemma {:induction false} ParseNeverStoresDefault(t: Table, sections: seq<(string, Entries)>)
    ensures "DEFAULT" in ParseFrom(t, sections).table <==> "DEFAULT" in t
    decreases |sections|
  {
    if sections != [] {
      var s0 := SectionStep(sections[0].0, sections[0].1);
      var t' := if s0.Store? then t[sections[0].0 := s0.contents] else t;
      ParseNeverStoresDefault(t', sections[1..]);
    }
  }

  /**
   * After a successful `parse` into the empty table, `get(name)` finds a
   * section exactly when the file has a non-DEFAULT section of that name, and
   * then returns that section's validated keys.
   */
  lemma ParseThenGet(sections: seq<(string, Entries)>, name: string)
    requires WellFormedFile(sections)
    requires ParseSpec(map[], sections).outcome.Success?
    ensures name in ParseSpec(map[], sections).table <==>
      name != "DEFAULT" && exists i :: 0 <= i < |sections| && sections[i].0 == name
    ensures forall i :: 0 <= i < |sections| && sections[i].0 == name && name != "DEFAULT" ==>
      && SectionStep(sections[i].0, sections[i].1).Store?
      && ParseSpec(map[], sections).table[name] == SectionStep(sections[i].0, sections[i].1).contents
  {
    ParseTouchesOnlySectionNames(map[], sections);
    ParseNeverStoresDefault(map[], sections);
    forall i | 0 <= i < |sections| && sections[i].0 == name && name != "DEFAULT"
      ensures SectionStep(sections[i].0, sections[i].1).Store?
      ensures name in ParseSpec(map[], sections).table
      ensures ParseSpec(map[], sections).table[name] == SectionStep(sections[i].0, sections[i].1).contents
    {
      ParseStoresEachSection(map[], sections, i);
    }
  }

  /** The module state: the `_CONFIG` table. */
  class Configuration {
    var table: Table

    constructor()
      ensures table == map[]
    {
      table := map[];
    }

    /** Validates a section of the given kind and, only if it is valid, stores it under its name. */
    method StoreSection(kind: Kind, section: string, entries: Entries) returns (r: Result<(), Reason>)
      modifies this
      ensures r.Success? <==> Validated(kind, entries).Success?
      ensures r.Failure? ==> r.error == Validated(kind, entries).error && table == old(table)
      ensures r.Success? ==> table == old(table)[section := Validated(kind, entries).value]
    {
      var v := ParseSection(kind, entries);
      match v
      case Failure(e) =>
        return Failure(e);
      case Success(m) =>
        table := table[section := m];
        return Success(());
    }

    /** `parse_frontend`: the 11 frontend keys and an integer port. */
    method ParseFrontend(section: string, entries: Entries) returns (r: Result<(), Reason>)
      modifies this
      ensures r.Success? <==> Validated(FrontendKind, entries).Success?
      ensures r.Failure? ==> r.error == Validated(FrontendKind, entries).error && table == old(table)
      ensures r.Success? ==> table == old(table)[section := Validated(FrontendKind, entries).value]
    {
      r := StoreSection(FrontendKind, section, entries);
    }

    /** `parse_backend`: the 8 backend keys and an integer port. */
    method ParseBackend(section: string, entries: Entries) returns (r: Result<(), Reason>)
      modifies this
      ensures r.Success? <==> Validated(BackendKind, entries).Success?
      ensures r.Failure? ==> r.error == Validated(BackendKind, entries).error && table == old(table)
      ensures r.Success? ==> table == old(table)[section := Validated(BackendKind, entries).value]
    {
      r := StoreSection(BackendKind, section, entries);
    }

    /** `parse_database`: the 5 database keys and an integer port (never called by `parse`). */
    method ParseDatabase(section: string, entries: Entries) returns (r: Result<(), Reason>)
      modifies this
      ensures r.Success? <==> Validated(DatabaseKind, entries).Success?
      ensures r.Failure? ==> r.error == Validated(DatabaseKind, entries).error && table == old(table)
      ensures r.Success? ==> table == old(table)[section := Validated(DatabaseKind, entries).value]
    {
      r := StoreSection(DatabaseKind, section, entries);
    }

    /**
     * `parse`: `sections` lists what iterating the parsed file yields, DEFAULT
     * first. The table ends as the section loop leaves it.
     */
    method Parse(sections: seq<(string, Entries)>) returns (r: Result<(), Reason>)
      requires WellFormedFile(sections)
      modifies this
      ensures Parsed(r, table) == ParseSpec(old(table), sections)
    {
      if |sections| == 1 {
        return Failure(EmptyFile);
      }
      var i := 0;
      while i < |sections|
        invariant 0 <= i <= |sections|
        invariant ParseFrom(old(table), sections) == ParseFrom(table, sections[i..])
      {
        var (name, entries) := sections[i];
        assert sections[i..][1..] == sections[i + 1..];
        if name == "DEFAULT" {
          i := i + 1;
          continue;
        }
        if "type" !in entries {
          return Failure(NoType(name));
        } else if entries["type"] == "frontend" {
          r := ParseFrontend(name, entries);
        } else if entries["type"] == "backend" {
          r := ParseBackend(name, entries);
        } else {
          return Failure(UnknownType(name, entries["type"]));
        }
        if r.Failure? {
          return r;
        }
        i := i + 1;
      }
      return Success(());
    }

    /** `get(section)`: the stored section, or None. */
    function Get(section: string): (r: Option<map<string, Value>>)
      reads this
      ensures r.Some? <==> section in table
      ensures r.Some? ==> r.value == table[section]
    {
      if section in table then Some(table[section]) else None
    }

    /** `backend(key)`: the key of the section literally named "backend". */
    function Backend(key: string): (r: Result<Value, Error>)
      reads this
      ensures r.Success? <==> "backend" in table && key in table["backend"]
      ensures "backend" !in table ==> r == Failure(InvalidConfiguration(MissingSection("backend")))
      ensures "backend" in table && key !in table["backend"] ==> r == Failure(KeyError(key))
      ensures r.Success? ==> r.value == table["backend"][key]
    {
      SectionKey(table, "backend", key)
    }

    /** `database(key)`: the key of the section literally named "database". */
    function Database(key: string): (r: Result<Value, Error>)
      reads this
      ensures r.Success? <==> "database" in table && key in table["database"]
      ensures "database" !in table ==> r == Failure(InvalidConfiguration(MissingSection("database")))
      ensures "database" in table && key !in table["database"] ==> r == Failure(KeyError(key))
      ensures r.Success? ==> r.value == table["database"][key]
    {
      SectionKey(table, "database", key)
    }

    /** `frontend(key)`: the key of the section literally named "frontend". */
    function Frontend(key: string): (r: Result<Value, Error>)
      reads this
      ensures r.Success? <==> "frontend" in table && key in table["frontend"]
      ensures "frontend" !in table ==> r == Failure(InvalidConfiguration(MissingSection("frontend")))
      ensures "frontend" in table && key !in table["frontend"] ==> r == Failure(KeyError(key))
      ensures r.Success? ==> r.value == table["frontend"][key]
    {
      SectionKey(table, "frontend", key)
    }
  }
}
