/**
 * The line-list part of add_args_to_env: setting `var=args` in the lines of
 * the service environment file. The file is modelled as its list of lines.
 */
module EnvFile {
  import opened Text

  /** The line that sets the variable. */
  function EnvEntry(variable: string, args: string): string
  {
    variable + "=" + args
  }

  /** Whether some line contains the variable name as a substring (Python's `var in line`). */
  predicate Mentions(lines: seq<string>, variable: string)
  {
    exists i :: 0 <= i < |lines| && Contains(lines[i], variable)
  }

  /** Every line that contains the variable replaced by its entry, the others kept. */
  function Rewritten(lines: seq<string>, variable: string, args: string): (r: seq<string>)
    ensures |r| == |lines|
    ensures forall i :: 0 <= i < |lines| ==>
      r[i] == (if Contains(lines[i], variable) then EnvEntry(variable, args) else lines[i])
  {
    seq(|lines|, i requires 0 <= i < |lines| =>
      if Contains(lines[i], variable) then EnvEntry(variable, args) else lines[i])
  }

  /**
   * The lines add_args_to_env writes back for the lines it read: the same
   * number of lines when one of them mentions the variable, one more when
   * none does.
   */
  function PatchedLines(lines: seq<string>, variable: string, args: string): (r: seq<string>)
    ensures |r| == (if Mentions(lines, variable) then |lines| else |lines| + 1)
  {
    if Mentions(lines, variable) then Rewritten(lines, variable, args)
    else lines + [EnvEntry(variable, args)]
  }

  /**
   * add_args_to_env on the line list: overwrites, in place, every line that
   * contains the variable, and appends the entry when no line did.
   */
  method AddArgsToEnv(lines: seq<string>, variable: string, args: string) returns (envVars: seq<string>)
    ensures envVars == PatchedLines(lines, variable, args)
  {
    envVars := lines;
    var argsAdded := false;
    var index := 0;
    while index < |envVars|
      invariant 0 <= index <= |envVars| == |lines|
      invariant forall i :: 0 <= i < index ==> envVars[i] == Rewritten(lines, variable, args)[i]
      invariant forall i :: index <= i < |lines| ==> envVars[i] == lines[i]
      invariant argsAdded <==> exists i :: 0 <= i < index && Contains(lines[i], variable)
    {
      if Contains(envVars[index], variable) {
        argsAdded := true;
        envVars := envVars[index := EnvEntry(variable, args)];
      }
      index := index + 1;
    }
    if !argsAdded {
      assert envVars == lines;
      envVars := envVars + [EnvEntry(variable, args)];
    } else {
      assert envVars == Rewritten(lines, variable, args);
    }
  }

  /** An entry mentions its own variable. */
  lemma EntryMentionsVariable(variable: string, args: string)
    ensures Contains(EnvEntry(variable, args), variable)
  {
    PrefixContained(variable, "=" + args);
    assert EnvEntry(variable, args) == variable + ("=" + args);
  }

  /**
   * Every line that contains the variable becomes its entry and every other
   * line keeps its content and position; the entry is appended at the end
   * exactly when no line contained the variable, so the file grows by at
   * most one line, and afterwards it always sets the variable.
   */
  lemma PatchedLinesSpec(lines: seq<string>, variable: string, args: string)
    ensures var r := PatchedLines(lines, variable, args);
      && |lines| <= |r| <= |lines| + 1
      && (|r| == |lines| + 1 <==> !Mentions(lines, variable))
      && (forall i :: 0 <= i < |lines| && Contains(lines[i], variable) ==> r[i] == EnvEntry(variable, args))
      && (forall i :: 0 <= i < |lines| && !Contains(lines[i], variable) ==> r[i] == lines[i])
      && (|r| == |lines| + 1 ==> r[|lines|] == EnvEntry(variable, args))
      && EnvEntry(variable, args) in r
  {
    var r := PatchedLines(lines, variable, args);
    if Mentions(lines, variable) {
      var i :| 0 <= i < |lines| && Contains(lines[i], variable);
      assert r[i] == EnvEntry(variable, args);
    } else {
      assert r[|lines|] == EnvEntry(variable, args);
    }
  }

  /** Setting the same variable to the same arguments a second time changes nothing. */
  lemma {:induction false} PatchIdempotent(lines: seq<string>, variable: string, args: string)
    ensures PatchedLines(PatchedLines(lines, variable, args), variable, args) == PatchedLines(lines, variable, args)
  {
    var once := PatchedLines(lines, variable, args);
    var entry := EnvEntry(variable, args);
    EntryMentionsVariable(variable, args);
    PatchedLinesSpec(lines, variable, args);
    assert entry in once;
    var k :| 0 <= k < |once| && once[k] == entry;
    assert Mentions(once, variable) by {
      assert Contains(once[k], variable);
    }
    var twice := Rewritten(once, variable, args);
    forall i | 0 <= i < |once|
      ensures twice[i] == once[i]
    {
      if i < |lines| && Contains(lines[i], variable) {
        assert once[i] == entry;
      } else if i < |lines| {
        assert once[i] == lines[i];
      } else {
        assert once[i] == entry;
      }
    }
  }
}
