/** The selection state machine (source/components/App.tsx): the query, the hook
    toggle and the cursor, the visible list derived from them, and the wiring of the
    search box, the list and the execution controller. */
module App {
  import opened Wrappers
  import opened Seqs
  import opened Scripts
  import opened Search
  import opened SearchInput
  import opened ScriptList
  import opened UseScript
  import opened UseScriptExecution
  import opened Host

  /** The filter of `filteredScripts`: the name matches the query (an empty query
      matches everything), and hooks are shown only when the toggle is on. */
  predicate IsShown(script: Script, query: string, showHookScripts: bool) {
    (query == "" || Matches(query, script.name)) && (showHookScripts || !IsHookScript(script.name))
  }

  /** The visible list: exactly the loaded scripts that pass the filter, in their
      loaded order. */
  function FilteredScripts(scripts: seq<Script>, query: string, showHookScripts: bool): (visible: seq<Script>)
    ensures forall k :: 0 <= k < |visible| ==> visible[k] in scripts && IsShown(visible[k], query, showHookScripts)
    ensures forall k :: 0 <= k < |scripts| && IsShown(scripts[k], query, showHookScripts) ==> scripts[k] in visible
    ensures IsSubsequence(visible, scripts)
  {
    FilterMembers(scripts, s => IsShown(s, query, showHookScripts));
    FilterIsSubsequence(scripts, s => IsShown(s, query, showHookScripts));
    Filter(scripts, s => IsShown(s, query, showHookScripts))
  }

  /** The `query == ""` test is only a shortcut: calling the matcher on every name
      gives the same list, since the empty pattern matches every name. */
  lemma EmptyQueryShortcut(scripts: seq<Script>, query: string, showHookScripts: bool)
    ensures FilteredScripts(scripts, query, showHookScripts) ==
            Filter(scripts, (s: Script) => Matches(query, s.name) && (showHookScripts || !IsHookScript(s.name)))
  {
    forall s | s in scripts
      ensures IsShown(s, query, showHookScripts) ==
              (Matches(query, s.name) && (showHookScripts || !IsHookScript(s.name)))
    {
      EmptyPatternMatchesAll(s.name);
    }
    FilterExtensional(scripts, s => IsShown(s, query, showHookScripts),
                      (s: Script) => Matches(query, s.name) && (showHookScripts || !IsHookScript(s.name)));
  }

  /** The visible list is built one loaded script at a time. */
  lemma FilteredScriptsCons(script: Script, rest: seq<Script>, query: string, showHookScripts: bool)
    ensures FilteredScripts([script] + rest, query, showHookScripts) ==
            (if IsShown(script, query, showHookScripts) then [script] else []) +
            FilteredScripts(rest, query, showHookScripts)
  {
    assert ([script] + rest)[1..] == rest;
  }

  /** With hooks hidden, `build` and `test` pass the filter and `pretest` does not. */
  lemma HiddenFilterExample()
    ensures IsShown(Script("build", "tsc"), "", false)
    ensures !IsShown(Script("pretest", "x"), "", false)
    ensures IsShown(Script("test", "ava"), "", false)
  {
    OrdinaryNamesAreRegular();
    PrefixedNamesAreHooks("test");
    assert "pre" + "test" == "pretest";
  }

  /** With hooks hidden, `build`, `pretest`, `test` show as `build`, `test`. */
  lemma HooksHiddenExample()
    ensures FilteredScripts([Script("build", "tsc"), Script("pretest", "x"), Script("test", "ava")], "", false)
         == [Script("build", "tsc"), Script("test", "ava")]
  {
    var b, p, t := Script("build", "tsc"), Script("pretest", "x"), Script("test", "ava");
    HiddenFilterExample();
    FilteredScriptsCons(t, [], "", false);
    FilteredScriptsCons(p, [t], "", false);
    FilteredScriptsCons(b, [p, t], "", false);
    assert [b] + [p, t] == [b, p, t];
    assert [p] + [t] == [p, t];
  }

  /** With the toggle on, `pretest` shows as well. */
  lemma HooksShownExample()
    ensures var scripts := [Script("build", "tsc"), Script("pretest", "x"), Script("test", "ava")];
            FilteredScripts(scripts, "", true) == scripts
  {
    var b, p, t := Script("build", "tsc"), Script("pretest", "x"), Script("test", "ava");
    FilteredScriptsCons(t, [], "", true);
    FilteredScriptsCons(p, [t], "", true);
    FilteredScriptsCons(b, [p, t], "", true);
    assert [b] + [p, t] == [b, p, t];
    assert [p] + [t] == [p, t];
  }

  /** With the query `bd` and hooks hidden, `build` and `bundle` pass the filter and
      `deploy` does not. */
  lemma QueryFilterExample()
    ensures IsShown(Script("build", "tsc"), "bd", false)
    ensures IsShown(Script("bundle", "rollup"), "bd", false)
    ensures !IsShown(Script("deploy", "sh"), "bd", false)
  {
    SubsequenceExamples();
    MissingCharacterExample();
    OrdinaryNamesAreRegular();
  }

  /** The query `bd` keeps `build` and `bundle` and drops `deploy`. */
  lemma QueryExample()
    ensures FilteredScripts([Script("build", "tsc"), Script("bundle", "rollup"), Script("deploy", "sh")], "bd", false)
         == [Script("build", "tsc"), Script("bundle", "rollup")]
  {
    var b, u, d := Script("build", "tsc"), Script("bundle", "rollup"), Script("deploy", "sh");
    QueryFilterExample();
    FilteredScriptsCons(d, [], "bd", false);
    FilteredScriptsCons(u, [d], "bd", false);
    FilteredScriptsCons(b, [u, d], "bd", false);
    assert [b] + [u, d] == [b, u, d];
    assert [u] + [d] == [u, d];
  }

  /** An input event: a decoded key, or a new raw value from the text input. */
  datatype InputEvent = KeyPress(key: Key) | TextChanged(raw: string)

  class App {
    /** The state of the script-loading hook. */
    const store: ScriptStore
    /** The state of the execution hook. */
    const execution: ScriptExecution
    /** The process the UI runs in. */
    const host: Process
    /** `process.platform` */
    const platform: string

    var searchQuery: string
    var selectedIndex: int
    var showHookScripts: bool

    /** `filteredScripts` for the current state. */
    function Visible(): seq<Script>
      reads this, store
    {
      FilteredScripts(store.scripts, searchQuery, showHookScripts)
    }

    /** The render guard: the search box and the list are on screen, and so take
        input, only once scripts are loaded and until a script has been started. */
    predicate IsInteractive()
      reads this, store, execution
      ensures IsInteractive() <==> store.scripts != [] && !execution.isExecuted
    {
      !store.IsScriptsEmpty() && !execution.isExecuted
    }

    /** The cursor is 0 on an empty visible list and an index into it otherwise. */
    ghost predicate Valid()
      reads this, store
    {
      if Visible() == [] then selectedIndex == 0 else 0 <= selectedIndex < |Visible()|
    }

    /** Mounting `App`: an empty query, the cursor at 0, the hook toggle from the
        command line, no scripts yet and nothing executed. */
    constructor (initialShowHooks: bool, platform: string, host: Process)
      ensures this.host == host && this.platform == platform
      ensures fresh(store) && fresh(execution)
      ensures searchQuery == "" && selectedIndex == 0 && showHookScripts == initialShowHooks
      ensures store.scripts == [] && !execution.isExecuted
      ensures Valid()
    {
      store := new ScriptStore();
      execution := new ScriptExecution();
      this.host := host;
      this.platform := platform;
      searchQuery := "";
      selectedIndex := 0;
      showHookScripts := initialShowHooks;
    }

    /** The mount effect of the loading hook; new scripts change the visible list,
        so the cursor goes back to 0. */
    method Mount(read: Result<Json, string>)
      requires Valid()
      modifies this, store, host
      ensures Valid()
      ensures LoadResult(read).Success? ==>
                store.scripts == LoadResult(read).value && selectedIndex == 0 &&
                host.stdout == old(host.stdout) && host.exitCode == old(host.exitCode) &&
                host.exitRequested == old(host.exitRequested)
      ensures LoadResult(read).Failure? ==>
                store.scripts == old(store.scripts) && selectedIndex == old(selectedIndex) &&
                host.stdout == old(host.stdout) + [LoadFailurePrefix + LoadResult(read).error] &&
                host.exitCode == Some(1) && host.exitRequested && host.ExitStatus() == 1
      ensures host.stderr == old(host.stderr)
      ensures searchQuery == old(searchQuery) && showHookScripts == old(showHookScripts)
    {
      store.LoadPackageJson(read, host);
      if LoadResult(read).Success? {
        selectedIndex := 0;
      }
    }

    /** Tab: flip the hook toggle and put the cursor back at 0. */
    method OnTab()
      requires Valid()
      modifies this
      ensures showHookScripts == !old(showHookScripts) && selectedIndex == 0
      ensures searchQuery == old(searchQuery)
      ensures Valid()
    {
      showHookScripts := !showHookScripts;
      selectedIndex := 0;
    }

    /** The search box's `handleChange` feeding `setSearchQuery`: the sanitised value
        becomes the query; when it differs from the old query the visible list is
        recomputed and the cursor goes back to 0, otherwise nothing changes. */
    method OnQueryChange(raw: string)
      requires Valid()
      modifies this
      ensures searchQuery == Sanitize(raw)
      ensures selectedIndex == if Sanitize(raw) == old(searchQuery) then old(selectedIndex) else 0
      ensures showHookScripts == old(showHookScripts)
      ensures Valid()
    {
      var sanitized := Sanitize(raw);
      if sanitized != searchQuery {
        searchQuery := sanitized;
        selectedIndex := 0;
      }
    }

    /** The list's key handler with its two callbacks: a selection change sets the
        cursor, an execution request starts the script through the controller. */
    method OnListKey(key: Key) returns (spawn: Option<SpawnRequest>)
      requires Valid()
      modifies this, execution, host
      ensures var action := HandleKey(old(Visible()), old(selectedIndex), key);
              && selectedIndex == (if action.SelectionChange? then action.index else old(selectedIndex))
              && spawn == (if action.ExecuteScript?
                           then Some(SpawnRequest(NpmCommand(platform), ["run", action.name])) else None)
              && execution.isExecuted == (old(execution.isExecuted) || action.ExecuteScript?)
              && host.stdout == old(host.stdout) + (if action.ExecuteScript? then [ExecutingLine(action.name)] else [])
      ensures searchQuery == old(searchQuery) && showHookScripts == old(showHookScripts)
      ensures host.stderr == old(host.stderr) && host.exitCode == old(host.exitCode)
      ensures host.exitRequested == old(host.exitRequested)
      ensures Valid()
    {
      var action := HandleKey(Visible(), selectedIndex, key);
      spawn := None;
      match action {
        case NoAction =>
        case SelectionChange(index) =>
          selectedIndex := index;
        case ExecuteScript(name) =>
          var request := execution.ExecuteScript(name, platform, host);
          spawn := Some(request);
      }
    }

    /** One input event. Escape asks the UI to exit and Tab flips the toggle at any
        time (the app-level handler is always mounted); arrows, Return and text reach
        the list and the search box only while they are on screen. */
    method HandleInput(event: InputEvent) returns (spawn: Option<SpawnRequest>)
      requires Valid()
      modifies this, execution, host
      ensures Valid()
      ensures old(execution.isExecuted) ==> execution.isExecuted
      ensures spawn.Some? <==>
                event == KeyPress(Return) && old(IsInteractive()) && old(Visible()) != []
      ensures spawn.Some? ==>
                !old(execution.isExecuted) && execution.isExecuted &&
                spawn.value == SpawnRequest(NpmCommand(platform), ["run", old(Visible())[old(selectedIndex)].name])
      ensures event == KeyPress(Escape) ==>
                host.exitRequested && unchanged(this) && execution.isExecuted == old(execution.isExecuted) &&
                host.stdout == old(host.stdout)
      ensures event == KeyPress(Tab) ==>
                showHookScripts == !old(showHookScripts) && selectedIndex == 0 && searchQuery == old(searchQuery) &&
                unchanged(host) && execution.isExecuted == old(execution.isExecuted)
      ensures event.KeyPress? && event.key != Escape && event.key != Tab && old(IsInteractive()) ==>
                var action := HandleKey(old(Visible()), old(selectedIndex), event.key);
                && selectedIndex == (if action.SelectionChange? then action.index else old(selectedIndex))
                && searchQuery == old(searchQuery) && showHookScripts == old(showHookScripts)
                && execution.isExecuted == (old(execution.isExecuted) || action.ExecuteScript?)
                && host.stdout == old(host.stdout) + (if action.ExecuteScript? then [ExecutingLine(action.name)] else [])
                && host.exitRequested == old(host.exitRequested)
      ensures event.TextChanged? && old(IsInteractive()) ==>
                && searchQuery == Sanitize(event.raw)
                && selectedIndex == (if Sanitize(event.raw) == old(searchQuery) then old(selectedIndex) else 0)
                && showHookScripts == old(showHookScripts)
                && unchanged(host) && execution.isExecuted == old(execution.isExecuted)
      ensures !old(IsInteractive()) && event != KeyPress(Tab) ==>
                unchanged(this) && execution.isExecuted == old(execution.isExecuted)
      ensures !old(IsInteractive()) && event != KeyPress(Tab) && event != KeyPress(Escape) ==> unchanged(host)
      ensures host.exitCode == old(host.exitCode) && host.ExitStatus() == old(host.ExitStatus())
      ensures host.stderr == old(host.stderr)
    {
      spawn := None;
      match event {
        case KeyPress(key) =>
          if key == Escape {
            host.RequestExit();
          } else if key == Tab {
            OnTab();
          } else if IsInteractive() {
            spawn := OnListKey(key);
          }
        case TextChanged(raw) =>
          if IsInteractive() {
            OnQueryChange(raw);
          }
      }
    }

    /** The child's exit or error event, once a script has been started. */
    method OnChildEvent(event: ChildEvent)
      requires execution.isExecuted
      modifies host
      ensures host.stderr == old(host.stderr) +
                (if ChildOutcome(event).diagnostic.Some? then [ChildOutcome(event).diagnostic.value] else [])
      ensures host.exitRequested
      ensures host.exitCode == old(host.exitCode) && host.ExitStatus() == old(host.ExitStatus())
      ensures host.stdout == old(host.stdout)
    {
      execution.OnChildEvent(event, host);
    }
  }
}
