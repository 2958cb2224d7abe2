/** Script records and the hook classifier (source/utils/script.ts). */
module Scripts {
  import opened Seqs

  /** An npm script: its name in the manifest and the command it runs. */
  datatype Script = Script(name: string, command: string)

  /** npm lifecycle scripts that are hooks without a `pre`/`post` prefix. */
  const AdditionalHookScripts: set<string> :=
    {"install", "prepare", "publish", "version", "dependencies", "shrinkwrap"}

  /** A hook is a lifecycle name, or `pre`/`post` followed by at least one character.
      The comparison is case-sensitive. */
  function IsHookScript(scriptName: string): (hook: bool)
    ensures hook <==> scriptName in AdditionalHookScripts ||
                      (|scriptName| > 3 && scriptName == "pre" + scriptName[3..]) ||
                      (|scriptName| > 4 && scriptName == "post" + scriptName[4..])
  {
    assert |scriptName| > 3 ==> (scriptName[..3] == "pre" <==> scriptName == "pre" + scriptName[3..]) by {
      if |scriptName| > 3 && scriptName == "pre" + scriptName[3..] {
        assert scriptName[..3] == ("pre" + scriptName[3..])[..3];
      }
    }
    assert |scriptName| > 4 ==> (scriptName[..4] == "post" <==> scriptName == "post" + scriptName[4..]) by {
      if |scriptName| > 4 && scriptName == "post" + scriptName[4..] {
        assert scriptName[..4] == ("post" + scriptName[4..])[..4];
      }
    }
    if scriptName in AdditionalHookScripts then true
    else if |scriptName| > 3 && scriptName[..3] == "pre" then true
    else if |scriptName| > 4 && scriptName[..4] == "post" then true
    else false
  }

  /** The negation used for the "regular scripts" half of the list. */
  predicate IsRegularScript(scriptName: string) {
    !IsHookScript(scriptName)
  }

  /** Every one of the six lifecycle names is a hook. */
  lemma LifecycleNamesAreHooks()
    ensures forall n :: n in AdditionalHookScripts ==> IsHookScript(n)
    ensures IsHookScript("install") && IsHookScript("prepare") && IsHookScript("publish")
    ensures IsHookScript("version") && IsHookScript("dependencies") && IsHookScript("shrinkwrap")
  {
  }

  /** `pre` or `post` followed by any non-empty name is a hook. */
  lemma PrefixedNamesAreHooks(x: string)
    requires x != ""
    ensures IsHookScript("pre" + x)
    ensures IsHookScript("post" + x)
  {
    assert ("pre" + x)[..3] == "pre";
    assert ("post" + x)[..4] == "post";
  }

  /** Conversely, a hook outside the lifecycle set is `pre` or `post` followed by a
      non-empty rest. */
  lemma HookIsPrefixed(scriptName: string)
    requires IsHookScript(scriptName) && scriptName !in AdditionalHookScripts
    ensures (|scriptName| > 3 && scriptName == "pre" + scriptName[3..])
         || (|scriptName| > 4 && scriptName == "post" + scriptName[4..])
  {
    if |scriptName| > 3 && scriptName[..3] == "pre" {
      assert scriptName == scriptName[..3] + scriptName[3..];
    } else {
      assert scriptName == scriptName[..4] + scriptName[4..];
    }
  }

  /** Names too short to carry a prefix and a non-empty rest are not hooks, `pre` and
      `post` alone included. */
  lemma ShortNamesAreNotHooks()
    ensures !IsHookScript("") && !IsHookScript("p") && !IsHookScript("pr") && !IsHookScript("po")
    ensures !IsHookScript("pre") && !IsHookScript("post")
  {
    assert "post"[..3][2] != "pre"[2];
  }

  /** The prefix test is case-sensitive. */
  lemma CapitalisedPrefixIsNotHook()
    ensures !IsHookScript("PreBuild") && !IsHookScript("PostTest")
  {
    assert "PreBuild"[..3][0] != "pre"[0] && "PreBuild"[..4][0] != "post"[0];
    assert "PostTest"[..3][0] != "pre"[0] && "PostTest"[..4][0] != "post"[0];
  }

  /** `pre` or `post` inside a name, not at its start, does not make it a hook. */
  lemma InfixIsNotHook()
    ensures !IsHookScript("compress") && !IsHookScript("represent")
  {
    assert "compress"[..3][0] != "pre"[0] && "compress"[..4][0] != "post"[0];
    assert "represent"[..3][0] != "pre"[0] && "represent"[..4][0] != "post"[0];
  }

  /** Ordinary script names are regular. */
  lemma OrdinaryNamesAreRegular()
    ensures IsRegularScript("build") && IsRegularScript("bundle") && IsRegularScript("test")
  {
    assert "bundle"[..3][1] != "pre"[1] && "bundle"[..4][1] != "post"[1];
    assert "build"[..3][0] != "pre"[0] && "build"[..4][0] != "post"[0];
    assert "test"[..3][0] != "pre"[0];
  }

  /** Splitting a list of names into hooks and regular scripts loses and duplicates
      nothing: the two lists' lengths add up, together they hold exactly the names, and
      no name is in both. */
  lemma HookPartition(names: seq<string>)
    ensures |Filter(names, IsHookScript)| + |Filter(names, IsRegularScript)| == |names|
    ensures multiset(Filter(names, IsHookScript)) + multiset(Filter(names, IsRegularScript)) == multiset(names)
    ensures forall k :: 0 <= k < |Filter(names, IsHookScript)| ==>
              Filter(names, IsHookScript)[k] !in Filter(names, IsRegularScript)
  {
    FilterPartition(names, IsHookScript, IsRegularScript);
    FilterPartitionDisjoint(names, IsHookScript, IsRegularScript);
  }
}
