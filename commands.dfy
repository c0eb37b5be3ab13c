/** The argument vectors that `applyconfig` hands to the `oc` client.
    A command is built as `oc <verb> -f <path>`, followed by `--as <user>` when a user
    is to be impersonated and, for `apply` only, by `--dry-run` as the very last word. */
module Commands {

  datatype Option<T> = None | Some(value: T)

  /** The two `oc` subcommands the tool issues. */
  datatype Command = OcApply | OcProcess

  function Verb(kind: Command): (verb: string)
    ensures verb == "apply" <==> kind == OcApply
    ensures verb == "process" <==> kind == OcProcess
  {
    match kind
    case OcApply => "apply"
    case OcProcess => "process"
  }

  /** `oc <verb> -f <path>`, with `--as <user>` appended when `user` is non-empty. */
  function MakeOcCommand(kind: Command, path: string, user: string): (args: seq<string>)
    ensures |args| == if user == "" then 4 else 6
    ensures args[..4] == ["oc", Verb(kind), "-f", path]
    ensures user != "" ==> args[4..] == ["--as", user]
  {
    var base := ["oc", Verb(kind), "-f", path];
    if user != "" then base + ["--as", user] else base
  }

  /** The apply command for `path`, with `--dry-run` appended last when `dry` holds. */
  function MakeOcApply(path: string, user: string, dry: bool): (args: seq<string>)
    ensures dry ==> args == MakeOcCommand(OcApply, path, user) + ["--dry-run"]
    ensures !dry ==> args == MakeOcCommand(OcApply, path, user)
    ensures |args| == 4 + (if user == "" then 0 else 2) + (if dry then 1 else 0)
    ensures dry && user != "" ==> args[4..] == ["--as", user, "--dry-run"]
  {
    var cmd := MakeOcCommand(OcApply, path, user);
    if dry then cmd + ["--dry-run"] else cmd
  }

  /** The settings an argument vector is built from. A `process` command never carries
      `--dry-run`, so an invocation with kind `OcProcess` and `dry` set is not well formed. */
  datatype Invocation = Invocation(kind: Command, path: string, user: string, dry: bool)
  {
    predicate WellFormed() {
      kind == OcProcess ==> !dry
    }
  }

  /** The argument vector the builders produce for `inv`. */
  function Render(inv: Invocation): seq<string>
  {
    if inv.kind == OcApply then MakeOcApply(inv.path, inv.user, inv.dry)
    else MakeOcCommand(OcProcess, inv.path, inv.user)
  }

  function KindOfVerb(verb: string): Option<Command>
  {
    if verb == "apply" then Some(OcApply)
    else if verb == "process" then Some(OcProcess)
    else None
  }

  /** Reads an argument vector back into the settings it was built from, positionally;
      `None` for any vector that no builder produces. */
  function ParseOcArgs(args: seq<string>): (r: Option<Invocation>)
    ensures r.Some? ==> r.value.WellFormed()
  {
    if |args| < 4 || args[0] != "oc" || args[2] != "-f" then None
    else
      match KindOfVerb(args[1])
      case None => None
      case Some(kind) =>
        var path, rest := args[3], args[4..];
        if rest == [] then
          Some(Invocation(kind, path, "", false))
        else if rest == ["--dry-run"] && kind == OcApply then
          Some(Invocation(kind, path, "", true))
        else if |rest| == 2 && rest[0] == "--as" && rest[1] != "" then
          Some(Invocation(kind, path, rest[1], false))
        else if |rest| == 3 && rest[0] == "--as" && rest[1] != "" && rest[2] == "--dry-run" && kind == OcApply then
          Some(Invocation(kind, path, rest[1], true))
        else
          None
  }

  /** Every command the builder produces reads back as exactly the kind, path and user it was built from. */
  lemma ParseMakeOcCommand(kind: Command, path: string, user: string)
    ensures ParseOcArgs(MakeOcCommand(kind, path, user)) == Some(Invocation(kind, path, user, false))
  {
  }

  /** Every apply command reads back as exactly the path, user and dry-run setting it was built from. */
  lemma ParseMakeOcApply(path: string, user: string, dry: bool)
    ensures ParseOcArgs(MakeOcApply(path, user, dry)) == Some(Invocation(OcApply, path, user, dry))
  {
  }

  /** Reading back and re-rendering gives the very same argument vector. */
  lemma RenderParseOcArgs(args: seq<string>)
    ensures ParseOcArgs(args).Some? ==> Render(ParseOcArgs(args).value) == args
  {
  }

  /** Rendering a well-formed invocation and reading it back gives that invocation. */
  lemma ParseRender(inv: Invocation)
    requires inv.WellFormed()
    ensures ParseOcArgs(Render(inv)) == Some(inv)
  {
  }

  /** Distinct settings never produce the same apply command line. */
  lemma MakeOcApplyInjective(path1: string, user1: string, dry1: bool, path2: string, user2: string, dry2: bool)
    requires MakeOcApply(path1, user1, dry1) == MakeOcApply(path2, user2, dry2)
    ensures path1 == path2 && user1 == user2 && dry1 == dry2
  {
    ParseMakeOcApply(path1, user1, dry1);
    ParseMakeOcApply(path2, user2, dry2);
  }

  /** `--dry-run` is appended to the plain apply command exactly when a dry run is asked for. */
  lemma DryRunAppendedIff(path: string, user: string, dry: bool)
    ensures MakeOcApply(path, user, dry) == MakeOcCommand(OcApply, path, user) + ["--dry-run"] <==> dry
  {
  }

  /** The rows of the `makeOcCommand` test table. */
  lemma MakeOcCommandTable()
    ensures MakeOcCommand(OcApply, "/path/to/file", "") == ["oc", "apply", "-f", "/path/to/file"]
    ensures MakeOcCommand(OcApply, "/path/to/file", "joe") == ["oc", "apply", "-f", "/path/to/file", "--as", "joe"]
    ensures MakeOcCommand(OcProcess, "/path/to/file", "joe") == ["oc", "process", "-f", "/path/to/file", "--as", "joe"]
  {
  }

  /** The rows of the `makeOcApply` test table. */
  lemma MakeOcApplyTable()
    ensures MakeOcApply("/path/to/file", "", false) == ["oc", "apply", "-f", "/path/to/file"]
    ensures MakeOcApply("/path/to/different/file", "", true) == ["oc", "apply", "-f", "/path/to/different/file", "--dry-run"]
    ensures MakeOcApply("/path/to/file", "joe", true) == ["oc", "apply", "-f", "/path/to/file", "--as", "joe", "--dry-run"]
    ensures MakeOcApply("/path/to/file", "joe", false) == ["oc", "apply", "-f", "/path/to/file", "--as", "joe"]
  {
  }
}
