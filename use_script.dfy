/** Manifest validation and loading (source/hooks/useScript.ts). The manifest is taken
    as an already-parsed JSON value; reading the file and parsing it are not modelled. */
module UseScript {
  import opened Wrappers
  import opened Scripts
  import opened Host

  /** A parsed JSON value. An object's members are its own properties in
      `Object.entries` order; `JSON.parse` keeps one member per key. */
  datatype Json =
    | JNull
    | JBool(b: bool)
    | JNumber(n: real)
    | JString(s: string)
    | JArray(items: seq<Json>)
    | JObject(members: seq<(string, Json)>)

  const MaxScriptNameLength: nat := 100

  const NoScriptsFound := "No scripts found in package.json"
  const InvalidScriptsFormat := "Invalid scripts format in package.json"
  const NoScriptsDetected := "No npm scripts detected."
  const LoadFailurePrefix := "Failed to load npm scripts: "

  /** One character of the class `[a-zA-Z0-9-_:.]`. */
  predicate IsScriptNameChar(c: char) {
    ('a' <= c <= 'z') || ('A' <= c <= 'Z') || ('0' <= c <= '9') ||
    c == '-' || c == '_' || c == ':' || c == '.'
  }

  /** The regular expression `^[a-zA-Z0-9-_:.]+$`, matched character by character. */
  function MatchesNamePattern(s: string): (matched: bool)
    ensures matched <==> s != [] && forall k :: 0 <= k < |s| ==> IsScriptNameChar(s[k])
  {
    s != [] && IsScriptNameChar(s[0]) && (|s| == 1 || MatchesNamePattern(s[1..]))
  }

  /** `isValidScriptName`: 1 to 100 characters, all from the allowed class. */
  function IsValidScriptName(name: string): (valid: bool)
    ensures valid <==> 1 <= |name| <= MaxScriptNameLength &&
                       forall k :: 0 <= k < |name| ==> IsScriptNameChar(name[k])
  {
    if name == "" then false
    else if |name| == 0 || |name| > MaxScriptNameLength then false
    else MatchesNamePattern(name)
  }

  /** JavaScript truthiness of a JSON value. */
  function Truthy(v: Json): (truthy: bool)
    ensures !truthy <==> v == JNull || v == JBool(false) || v == JNumber(0.0) || v == JString("")
  {
    match v
    case JNull => false
    case JBool(b) => b
    case JNumber(n) => n != 0.0
    case JString(s) => s != ""
    case JArray(_) => true
    case JObject(_) => true
  }

  /** `typeof` of a JSON value (`null` and arrays are objects). */
  function TypeOf(v: Json): (t: string)
    ensures t == "object" <==> v.JNull? || v.JArray? || v.JObject?
    ensures t in {"object", "boolean", "number", "string"}
  {
    match v
    case JNull => "object"
    case JBool(_) => "boolean"
    case JNumber(_) => "number"
    case JString(_) => "string"
    case JArray(_) => "object"
    case JObject(_) => "object"
  }

  /** The value of member `key` among an object's members; `None` is `undefined`. */
  function Lookup(members: seq<(string, Json)>, key: string): (v: Option<Json>)
    ensures v.Some? ==> (key, v.value) in members
    ensures v.None? ==> forall k :: 0 <= k < |members| ==> members[k].0 != key
  {
    if members == [] then None
    else if members[0].0 == key then Some(members[0].1)
    else Lookup(members[1..], key)
  }

  /** Property access `v[key]` for a name that is neither an array index nor `length`:
      only objects have such properties. */
  function Property(v: Json, key: string): Option<Json> {
    if v.JObject? then Lookup(v.members, key) else None
  }

  /** The script an entry contributes: one when its key is a valid name and its
      value a string, none otherwise. */
  function EntryScripts(entry: (string, Json)): (scripts: seq<Script>)
    ensures |scripts| <= 1
    ensures scripts != [] <==> IsValidScriptName(entry.0) && entry.1.JString?
    ensures scripts != [] ==> scripts[0].name == entry.0 && entry.1 == JString(scripts[0].command)
  {
    if IsValidScriptName(entry.0) && entry.1.JString? then [Script(entry.0, entry.1.s)] else []
  }

  /** The scripts the loop collects from `entries`, in entry order: at most one per
      entry, each with a valid name. */
  function ValidScripts(entries: seq<(string, Json)>): (scripts: seq<Script>)
    ensures |scripts| <= |entries|
    ensures forall k :: 0 <= k < |scripts| ==> IsValidScriptName(scripts[k].name)
    decreases |entries|
  {
    if entries == [] then []
    else ValidScripts(entries[..|entries| - 1]) + EntryScripts(entries[|entries| - 1])
  }

  /** `extractScripts` on a parsed manifest: an error when the manifest is not an object
      with a truthy `scripts` member, another when that member is not a plain object,
      and otherwise the valid entries of `scripts`. */
  function Extract(parsed: Json): (result: Result<seq<Script>, string>)
    ensures result == Failure(NoScriptsFound) <==>
              !(parsed.JObject? && Lookup(parsed.members, "scripts").Some? &&
                Truthy(Lookup(parsed.members, "scripts").value))
    ensures result == Failure(InvalidScriptsFormat) <==>
              parsed.JObject? && Lookup(parsed.members, "scripts").Some? &&
              Truthy(Lookup(parsed.members, "scripts").value) &&
              !Lookup(parsed.members, "scripts").value.JObject?
    ensures result.Success? ==>
              parsed.JObject? && Lookup(parsed.members, "scripts").Some? &&
              Lookup(parsed.members, "scripts").value.JObject? &&
              result.value == ValidScripts(Lookup(parsed.members, "scripts").value.members)
    ensures parsed.JObject? && Lookup(parsed.members, "scripts").Some? &&
            Lookup(parsed.members, "scripts").value.JObject? ==>
              result == Success(ValidScripts(Lookup(parsed.members, "scripts").value.members))
  {
    var scripts := Property(parsed, "scripts");
    if !Truthy(parsed) || TypeOf(parsed) != "object" || scripts.None? || !Truthy(scripts.value) then
      Failure(NoScriptsFound)
    else if TypeOf(scripts.value) != "object" || scripts.value.JArray? then
      Failure(InvalidScriptsFormat)
    else
      Success(ValidScripts(scripts.value.members))
  }

  /** `extractScripts`: the two guards, then the `for` loop over the entries of
      `scripts`. */
  method ExtractScripts(parsed: Json) returns (result: Result<seq<Script>, string>)
    ensures result == Extract(parsed)
  {
    var scripts := Property(parsed, "scripts");
    if !Truthy(parsed) || TypeOf(parsed) != "object" || scripts.None? || !Truthy(scripts.value) {
      return Failure(NoScriptsFound);
    }
    if TypeOf(scripts.value) != "object" || scripts.value.JArray? {
      return Failure(InvalidScriptsFormat);
    }
    var validScripts := CollectScripts(scripts.value.members);
    return Success(validScripts);
  }

  /** The loop of `extractScripts`: push a script for every entry whose key is a valid
      name and whose value is a string. */
  method CollectScripts(entries: seq<(string, Json)>) returns (validScripts: seq<Script>)
    ensures validScripts == ValidScripts(entries)
  {
    validScripts := [];
    for i := 0 to |entries|
      invariant validScripts == ValidScripts(entries[..i])
    {
      assert entries[..i + 1][..i] == entries[..i];
      assert ValidScripts(entries[..i + 1]) == validScripts + EntryScripts(entries[i]);
      var (key, value) := entries[i];
      if IsValidScriptName(key) && value.JString? {
        validScripts := validScripts + [Script(key, value.s)];
      }
    }
    assert entries[..|entries|] == entries;
  }

  /** Every extracted script comes from an entry with a valid name and a string value,
      with that name and that value as its command. */
  lemma {:induction false} ValidScriptsSound(entries: seq<(string, Json)>)
    ensures forall k :: 0 <= k < |ValidScripts(entries)| ==>
              IsValidScriptName(ValidScripts(entries)[k].name) &&
              (ValidScripts(entries)[k].name, JString(ValidScripts(entries)[k].command)) in entries
    decreases |entries|
  {
    if entries != [] {
      var front := entries[..|entries| - 1];
      ValidScriptsSound(front);
      forall k | 0 <= k < |ValidScripts(front)|
        ensures (ValidScripts(front)[k].name, JString(ValidScripts(front)[k].command)) in entries
      {
        var e := (ValidScripts(front)[k].name, JString(ValidScripts(front)[k].command));
        var j :| 0 <= j < |front| && front[j] == e;
        assert entries[j] == e;
      }
    }
  }

  /** Every entry with a valid name and a string value is extracted. */
  lemma {:induction false} ValidScriptsComplete(entries: seq<(string, Json)>)
    ensures forall k :: 0 <= k < |entries| && IsValidScriptName(entries[k].0) && entries[k].1.JString? ==>
              Script(entries[k].0, entries[k].1.s) in ValidScripts(entries)
    decreases |entries|
  {
    if entries != [] {
      var front := entries[..|entries| - 1];
      ValidScriptsComplete(front);
      forall k | 0 <= k < |entries| - 1 && IsValidScriptName(entries[k].0) && entries[k].1.JString?
        ensures Script(entries[k].0, entries[k].1.s) in ValidScripts(entries)
      {
        assert entries[k] == front[k];
      }
    }
  }

  /** Extraction keeps entry order: the scripts appear as their entries do. Each
      extracted script at position `k` comes from an entry at some position, and those
      positions increase with `k`. */
  lemma {:induction false} ValidScriptsInOrder(entries: seq<(string, Json)>) returns (from: seq<nat>)
    ensures |from| == |ValidScripts(entries)|
    ensures forall k :: 0 <= k < |from| ==>
              from[k] < |entries| && EntryScripts(entries[from[k]]) == [ValidScripts(entries)[k]]
    ensures forall k, l :: 0 <= k < l < |from| ==> from[k] < from[l]
    decreases |entries|
  {
    if entries == [] {
      from := [];
    } else {
      var n := |entries| - 1;
      var front := entries[..n];
      var prev := ValidScripts(front);
      from := ValidScriptsInOrder(front);
      assert ValidScripts(entries) == prev + EntryScripts(entries[n]);
      forall k | 0 <= k < |from|
        ensures entries[from[k]] == front[from[k]] && ValidScripts(entries)[k] == prev[k]
      { }
      if EntryScripts(entries[n]) != [] {
        assert ValidScripts(entries)[|prev|] == EntryScripts(entries[n])[0];
        from := from + [n];
      }
    }
  }

  /** Object keys are unique, so extracted names are unique. */
  lemma {:induction false} ValidScriptsDistinct(entries: seq<(string, Json)>)
    requires forall i, j :: 0 <= i < j < |entries| ==> entries[i].0 != entries[j].0
    ensures forall i, j :: 0 <= i < j < |ValidScripts(entries)| ==>
              ValidScripts(entries)[i].name != ValidScripts(entries)[j].name
    decreases |entries|
  {
    if entries != [] {
      var n := |entries| - 1;
      var front := entries[..n];
      ValidScriptsDistinct(front);
      ValidScriptsSound(front);
      var prev := ValidScripts(front);
      forall i | 0 <= i < |prev| ensures prev[i].name != entries[n].0 {
        var e := (prev[i].name, JString(prev[i].command));
        var j :| 0 <= j < |front| && front[j] == e;
        assert entries[j].0 == prev[i].name;
      }
    }
  }

  /** What `loadPackageJson` ends with, given the outcome of reading and parsing the
      file: the scripts, or the message of the error it catches. Zero valid scripts is
      an error too. */
  function LoadResult(read: Result<Json, string>): (result: Result<seq<Script>, string>)
    ensures result.Success? <==> read.Success? && Extract(read.value).Success? && Extract(read.value).value != []
    ensures result.Success? ==> result.value == Extract(read.value).value
    ensures read.Failure? ==> result == Failure(read.error)
    ensures read.Success? && Extract(read.value).Failure? ==> result == Extract(read.value)
    ensures read.Success? && Extract(read.value) == Success([]) ==> result == Failure(NoScriptsDetected)
  {
    match read
    case Failure(message) => Failure(message)
    case Success(parsed) =>
      match Extract(parsed)
      case Failure(message) => Failure(message)
      case Success(scripts) => if |scripts| == 0 then Failure(NoScriptsDetected) else Success(scripts)
  }

  /** The hook's state: the loaded scripts, empty until loading succeeds. */
  class ScriptStore {
    var scripts: seq<Script>

    constructor ()
      ensures scripts == []
    {
      scripts := [];
    }

    /** `isScriptsEmpty` */
    predicate IsScriptsEmpty()
      reads this
      ensures IsScriptsEmpty() <==> scripts == []
    {
      |scripts| == 0
    }

    /** `loadPackageJson`: store the scripts; on any error, print it, set the exit code
        to 1 and ask the UI to exit. */
    method LoadPackageJson(read: Result<Json, string>, host: Process)
      modifies this, host
      ensures LoadResult(read).Success? ==>
                scripts == LoadResult(read).value &&
                host.stdout == old(host.stdout) && host.exitCode == old(host.exitCode) &&
                host.exitRequested == old(host.exitRequested)
      ensures LoadResult(read).Failure? ==>
                scripts == old(scripts) &&
                host.stdout == old(host.stdout) + [LoadFailurePrefix + LoadResult(read).error] &&
                host.exitCode == Some(1) && host.exitRequested
      ensures host.stderr == old(host.stderr)
    {
      var error: Option<string> := None;
      match read {
        case Failure(message) =>
          error := Some(message);
        case Success(parsed) =>
          var extracted := ExtractScripts(parsed);
          match extracted {
            case Failure(message) =>
              error := Some(message);
            case Success(found) =>
              if |found| == 0 {
                error := Some(NoScriptsDetected);
              } else {
                scripts := found;
              }
          }
      }
      if error.Some? {
        host.Log(LoadFailurePrefix + error.value);
        host.SetExitCode(1);
        host.RequestExit();
      }
    }
  }

  /** A manifest whose `scripts` object is empty fails to load with an exit code of 1. */
  lemma EmptyScriptsExample()
    ensures LoadResult(Success(JObject([("scripts", JObject([]))]))) == Failure(NoScriptsDetected)
  {
    var parsed := JObject([("scripts", JObject([]))]);
    assert Lookup(parsed.members, "scripts") == Some(JObject([]));
    assert ValidScripts([]) == [];
  }
}
