/** The config applier: one unit of work per configuration file, applied either as a plain
    manifest (one `oc apply`) or as a template (`oc process`, then the apply command for
    path `-`, which reads the processed output). A failed process step ends the work before anything is applied. */
module Applier {
  import opened Commands
  import opened Executor

  class ConfigApplier {
    const executor: MockExecutor
    const path: string
    const user: string
    const dry: bool

    constructor (executor: MockExecutor, path: string, user: string, dry: bool)
      ensures this.executor == executor && this.path == path
      ensures this.user == user && this.dry == dry
    {
      this.executor := executor;
      this.path := path;
      this.user := user;
      this.dry := dry;
    }

    /** Applies the file with a single `oc apply` and reports that call's error. */
    method AsGenericManifest() returns (err: bool)
      modifies executor
      ensures executor.responses == old(executor.responses)
      ensures executor.calls == old(executor.calls) + [Cmd(MakeOcApply(path, user, dry))]
      ensures err == executor.ErrorAt(|old(executor.calls)|)
    {
      var cmd := Cmd(MakeOcApply(path, user, dry));
      err := executor.RunAndCheck(cmd);
    }

    /** Processes the template and, only when that succeeded, applies the processed output
        read from standard input; reports the first error met. */
    method AsTemplate() returns (err: bool)
      modifies executor
      ensures executor.responses == old(executor.responses)
      ensures var n := |old(executor.calls)|;
              var process := Cmd(MakeOcCommand(OcProcess, path, user));
              if executor.ErrorAt(n) then
                executor.calls == old(executor.calls) + [process] && err
              else
                executor.calls == old(executor.calls) + [process, Cmd(MakeOcApply("-", user, dry))] &&
                err == executor.ErrorAt(n + 1)
    {
      var ocProcessCmd := Cmd(MakeOcCommand(OcProcess, path, user));
      err := executor.RunAndCheck(ocProcessCmd);
      if err {
        return;
      }
      var ocApplyCmd := Cmd(MakeOcApply("-", user, dry));
      err := executor.RunAndCheck(ocApplyCmd);
    }
  }

  /** One case of the manifest test: a fresh recorder scripted with `responses`, the
      applier run once, and the recorded argument vectors read back. */
  method TraceAsGenericManifest(path: string, user: string, dry: bool, responses: seq<bool>)
    returns (calls: seq<seq<string>>, err: bool)
    ensures calls == [MakeOcApply(path, user, dry)]
    ensures err <==> ScriptedError(responses, 0)
  {
    var executor := new MockExecutor(responses);
    var applier := new ConfigApplier(executor, path, user, dry);
    err := applier.AsGenericManifest();
    calls := executor.GetCalls();
  }

  /** One case of the template test. The process call always comes first; the apply call
      is issued exactly when the process call succeeded, and the outcome is an error
      exactly when one of the issued calls failed. */
  method TraceAsTemplate(path: string, user: string, dry: bool, responses: seq<bool>)
    returns (calls: seq<seq<string>>, err: bool)
    ensures 1 <= |calls| <= 2
    ensures calls[0] == MakeOcCommand(OcProcess, path, user)
    ensures |calls| == 2 <==> !ScriptedError(responses, 0)
    ensures |calls| == 2 ==> calls[1] == MakeOcApply("-", user, dry)
    ensures err <==> ScriptedError(responses, 0) || ScriptedError(responses, 1)
    ensures forall c :: c in calls ==> |c| >= 4 && (c[1] == "apply" ==> !ScriptedError(responses, 0))
  {
    var executor := new MockExecutor(responses);
    var applier := new ConfigApplier(executor, path, user, dry);
    err := applier.AsTemplate();
    calls := executor.GetCalls();
  }

  /** The rows of the `asGenericManifest` test table. */
  method GenericManifestTable()
  {
    assert MakeOcCommand(OcApply, "path", "") == ["oc", "apply", "-f", "path"];
    assert MakeOcCommand(OcApply, "path", "user") == ["oc", "apply", "-f", "path", "--as", "user"];
    assert MakeOcApply("path", "", true) == ["oc", "apply", "-f", "path", "--dry-run"];
    assert MakeOcApply("path", "user", true) == ["oc", "apply", "-f", "path", "--as", "user", "--dry-run"];
    var calls, err := TraceAsGenericManifest("path", "", false, [false]);
    assert calls == [["oc", "apply", "-f", "path"]] && !err;
    calls, err := TraceAsGenericManifest("path", "", true, [false]);
    assert calls == [["oc", "apply", "-f", "path", "--dry-run"]] && !err;
    calls, err := TraceAsGenericManifest("path", "user", true, [false]);
    assert calls == [["oc", "apply", "-f", "path", "--as", "user", "--dry-run"]] && !err;
    calls, err := TraceAsGenericManifest("path", "", false, [true]);
    assert calls == [["oc", "apply", "-f", "path"]] && err;
  }

  /** The rows of the `asTemplate` test table. */
  method TemplateTable()
  {
    assert MakeOcCommand(OcProcess, "path", "") == ["oc", "process", "-f", "path"];
    assert MakeOcCommand(OcApply, "-", "") == ["oc", "apply", "-f", "-"];
    var calls, err := TraceAsTemplate("path", "", false, [false, false]);
    assert calls == [["oc", "process", "-f", "path"], ["oc", "apply", "-f", "-"]] && !err;
    calls, err := TraceAsTemplate("path", "", false, [false, true]);
    assert calls == [["oc", "process", "-f", "path"], ["oc", "apply", "-f", "-"]] && err;
    calls, err := TraceAsTemplate("path", "", false, [true]);
    assert calls == [["oc", "process", "-f", "path"]] && err;
  }
}
