/** The `bash -c` scripts the two strategies compose for the `v2` dataset, as
    ordered lists of typed steps rendered to text at the boundary. Nothing here
    interprets the shell: properties are about the steps and the text. */
module Scripts {
  import opened Strings

  datatype Step =
    | BaselineSetup(issueId: string)  // export ISSUE_ID, run the setup playbook, commit a baseline
    | GuardedApply(patch: string)     // apply the patch only if the file is non-empty
    | ExecArgs                        // run the positional arguments in a subshell
    | HardReset(commit: string)       // git reset --hard to the task commit
    | Apply(patch: string)            // git apply, chained with &&
    | Inline(commandLine: string)     // the wrapped command written into the script
    | CaptureDiff(patch: string)      // keep $?, write git diff to the patch, exit with the kept code

  /** The fixed tail of the Docker `v2` setup, after the issue id. */
  const SetupTail: string := " && " + SetupCommands

  const SetupCommands: string :=
    "export CI=true && export NPM_CONFIG_YES=true "
    + "&& sed 's|source /root/.nvm/nvm.sh|unset "
    + "NPM_CONFIG_PREFIX npm_config_prefix "
    + "NPM_PREFIX; source /root/.nvm/nvm.sh|g' "
    + "/app/tests/setup_expensify.yml "
    + "> /tmp/setup_expensify_unset.yml "
    + "&& ansible-playbook -i \"localhost,\" "
    + "--connection=local /tmp/setup_expensify_unset.yml "
    + "&& git add -A && git -c user.email=ts-bench@local "
    + "-c user.name=ts-bench commit -m "
    + "\"setup baseline\" --no-gpg-sign "
    + "--allow-empty && "

  const ExecText: string := "(exec \"$@\")"

  function DiffSuffix(patch: string): string {
    "; RES=$?; git diff > " + patch + "; exit $RES"
  }

  function RenderStep(step: Step): string {
    match step
    case BaselineSetup(id) => "export ISSUE_ID=" + id + SetupTail
    case GuardedApply(p) => "if [ -s " + p + " ]; then git apply " + p + "; fi; "
    case ExecArgs => ExecText
    case HardReset(c) => "git reset --hard " + c + " && "
    case Apply(p) => "git apply " + p + " && "
    case Inline(line) => line
    case CaptureDiff(p) => DiffSuffix(p)
  }

  /** The concatenation of a list of texts. */
  function Concat(texts: seq<string>): string
    decreases |texts|
  {
    if |texts| == 0 then "" else texts[0] + Concat(texts[1..])
  }

  lemma {:induction false} ConcatAppend(a: seq<string>, b: seq<string>)
    ensures Concat(a + b) == Concat(a) + Concat(b)
    decreases |a|
  {
    if |a| == 0 {
      assert a + b == b;
    } else {
      assert (a + b)[1..] == a[1..] + b;
      ConcatAppend(a[1..], b);
    }
  }

  function Texts(steps: seq<Step>): (r: seq<string>)
    ensures |r| == |steps|
    decreases |steps|
  {
    if |steps| == 0 then [] else [RenderStep(steps[0])] + Texts(steps[1..])
  }

  lemma {:induction false} TextsAppend(a: seq<Step>, b: seq<Step>)
    ensures Texts(a + b) == Texts(a) + Texts(b)
    decreases |a|
  {
    if |a| == 0 {
      assert a + b == b;
    } else {
      assert (a + b)[1..] == a[1..] + b;
      TextsAppend(a[1..], b);
    }
  }

  function Render(steps: seq<Step>): string {
    Concat(Texts(steps))
  }

  /** Rendering is compositional: the script of a concatenation is the
      concatenation of the scripts. */
  lemma RenderAppend(a: seq<Step>, b: seq<Step>)
    ensures Render(a + b) == Render(a) + Render(b)
  {
    TextsAppend(a, b);
    ConcatAppend(Texts(a), Texts(b));
  }

  /** A one-step script is that step's text; an empty script is empty. */
  lemma RenderSingle(step: Step)
    ensures Render([step]) == RenderStep(step)
    ensures Render([]) == ""
  {
    assert [step][1..] == [];
    assert Texts([step]) == [RenderStep(step)];
    assert [RenderStep(step)][1..] == [];
    assert Concat([RenderStep(step)]) == RenderStep(step) + Concat([]);
    assert Concat([]) == "";
    assert RenderStep(step) + "" == RenderStep(step);
  }

  /** The setup step opens with the export of the issue id. */
  lemma SetupOpensWithExport(id: string)
    ensures StartsWith(RenderStep(BaselineSetup(id)), "export ISSUE_ID=" + id + " && ")
  {
    var p := "export ISSUE_ID=" + id + " && ";
    assert RenderStep(BaselineSetup(id)) == p + SetupCommands;
    PrefixOfAppend(p, SetupCommands);
  }
}
