/** `getAgentScriptPath` of `src/config/paths.ts`: where `run-agent.sh` is
    found, inside the container or on the host. */
module Paths {
  import opened Wrappers
  import opened Strings
  import opened Types

  const HostScriptPath := "/ts-bench-host/scripts/run-agent.sh"
  const AppScriptPath := "/app/scripts/run-agent.sh"

  function AgentScriptPath(useDocker: bool, dataset: Option<DatasetType>, cwd: string): (r: string)
    ensures useDocker && dataset.GetOr(V1) == V2 ==> r == HostScriptPath
    ensures useDocker && dataset.GetOr(V1) != V2 ==> r == AppScriptPath
    ensures !useDocker ==> r == PathJoin(PathJoin(cwd, "scripts"), "run-agent.sh")
  {
    var d := dataset.GetOr(V1);
    if useDocker then (if d == V2 then HostScriptPath else AppScriptPath)
    else PathJoin(PathJoin(cwd, "scripts"), "run-agent.sh")
  }

  /** The local script path depends on the working directory only, and an
      omitted dataset behaves as `v1`. */
  lemma AgentScriptPathDefaults(cwd: string, d1: Option<DatasetType>, d2: Option<DatasetType>)
    ensures AgentScriptPath(false, d1, cwd) == AgentScriptPath(false, d2, cwd)
    ensures AgentScriptPath(true, None, cwd) == AgentScriptPath(true, Some(V1), cwd) == AppScriptPath
  {
  }
}
