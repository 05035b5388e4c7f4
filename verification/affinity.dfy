/**
 * The module-wide affinity settings of `multibench.core`: which operating-system
 * command binds each job to its cores (`numactl` or `taskset`), whether memory is
 * also bound to the local node, and the problem flag passed to the dummy and
 * timing programs.
 */
module Affinity {
  import opened Results

  /** The `ValueError`s that `set_affinity_cmd` raises, one per check. */
  datatype AffinityError =
    | NumactlUnavailable
    | TasksetUnavailable
    | TasksetCannotBindMemory
    | UnknownCommand(command: string)

  /** Why importing the module fails. */
  datatype LoadError =
    | NoAffinityTool                       // the RuntimeError of the host probe
    | DefaultRejected(error: AffinityError) // the default `set_affinity_cmd` call raised

  /** The pair of globals `affinity_cmd` and `mem_cmd`. */
  datatype Binding = Binding(affinityCmd: seq<string>, memCmd: seq<string>)

  const NumactlCmd: seq<string> := ["numactl", "-C"]
  const TasksetCmd: seq<string> := ["taskset", "-c"]
  const LocalMemCmd: seq<string> := ["-l", "--"]
  const NoMemCmd: seq<string> := ["--"]

  /** The numactl binding, with or without the local-memory flag. */
  function NumactlBinding(bindLocal: bool): Binding
  {
    Binding(NumactlCmd, if bindLocal then LocalMemCmd else NoMemCmd)
  }

  const TasksetBinding: Binding := Binding(TasksetCmd, [])

  /** Whether the binding restricts memory to the local node. */
  predicate BindsLocalMemory(b: Binding)
  {
    "-l" in b.memCmd
  }

  /** The bindings a host with the given tools may be left in. */
  predicate Permitted(haveNumactl: bool, haveTaskset: bool, b: Binding)
  {
    (haveNumactl && (b == NumactlBinding(true) || b == NumactlBinding(false)))
    || (haveTaskset && b == TasksetBinding)
  }

  /**
   * What `set_affinity_cmd(command, bindmem)` does on a host with the given
   * tools: the new binding, or the error it raises. `bindmem` is the tri-state
   * None/True/False.
   */
  function Configure(haveNumactl: bool, haveTaskset: bool, command: string, bindmem: Option<bool>)
    : (r: Result<Binding, AffinityError>)
    ensures r.Ok? <==> (command == "numactl" && haveNumactl)
                       || (command == "taskset" && haveTaskset && bindmem != Some(true))
    ensures r.Ok? ==> Permitted(haveNumactl, haveTaskset, r.value)
    ensures r.Ok? ==> (BindsLocalMemory(r.value) <==> command == "numactl" && bindmem != Some(false))
  {
    if command == "numactl" && !haveNumactl then Err(NumactlUnavailable)
    else if command == "taskset" && !haveTaskset then Err(TasksetUnavailable)
    else if command == "taskset" && bindmem == Some(true) then Err(TasksetCannotBindMemory)
    else if command != "numactl" && command != "taskset" then Err(UnknownCommand(command))
    else if command == "numactl" then
      assert "-l" !in NoMemCmd;
      var bindLocal := match bindmem case None => true case Some(b) => b;
      Ok(NumactlBinding(bindLocal))
    else Ok(TasksetBinding)
  }

  /** With numactl present, choosing it always succeeds, whatever else holds. */
  lemma NumactlChosen(haveNumactl: bool, haveTaskset: bool, bindmem: Option<bool>)
    requires haveNumactl
    ensures Configure(haveNumactl, haveTaskset, "numactl", bindmem)
         == Ok(Binding(["numactl", "-C"], if bindmem == Some(false) then ["--"] else ["-l", "--"]))
  {
  }

  /** With taskset present and memory binding not requested, choosing it succeeds. */
  lemma TasksetChosen(haveNumactl: bool, haveTaskset: bool, bindmem: Option<bool>)
    requires haveTaskset && bindmem != Some(true)
    ensures Configure(haveNumactl, haveTaskset, "taskset", bindmem) == Ok(Binding(["taskset", "-c"], []))
  {
  }

  /** Each check raises its own error, in the order the checks are made. */
  lemma ConfigureErrors(haveNumactl: bool, haveTaskset: bool, command: string, bindmem: Option<bool>)
    ensures command == "numactl" && !haveNumactl
            ==> Configure(haveNumactl, haveTaskset, command, bindmem) == Err(NumactlUnavailable)
    ensures command == "taskset" && !haveTaskset
            ==> Configure(haveNumactl, haveTaskset, command, bindmem) == Err(TasksetUnavailable)
    ensures command == "taskset" && haveTaskset && bindmem == Some(true)
            ==> Configure(haveNumactl, haveTaskset, command, bindmem) == Err(TasksetCannotBindMemory)
    ensures command != "numactl" && command != "taskset"
            ==> Configure(haveNumactl, haveTaskset, command, bindmem) == Err(UnknownCommand(command))
  {
  }

  /**
   * taskset with memory binding never succeeds: the error is "not available"
   * when taskset is missing and "unsupported" otherwise.
   */
  lemma TasksetNeverBindsMemory(haveNumactl: bool, haveTaskset: bool)
    ensures Configure(haveNumactl, haveTaskset, "taskset", Some(true))
         == Err(if haveTaskset then TasksetCannotBindMemory else TasksetUnavailable)
  {
  }

  /**
   * The permitted bindings are exactly those some successful call produces, so
   * the state can never pair taskset with memory binding.
   */
  lemma PermittedExactly(haveNumactl: bool, haveTaskset: bool, b: Binding)
    ensures Permitted(haveNumactl, haveTaskset, b)
        <==> (Configure(haveNumactl, haveTaskset, "numactl", None) == Ok(b)
              || Configure(haveNumactl, haveTaskset, "numactl", Some(false)) == Ok(b)
              || Configure(haveNumactl, haveTaskset, "taskset", None) == Ok(b))
    ensures Permitted(haveNumactl, haveTaskset, b) && BindsLocalMemory(b) ==> b.affinityCmd == NumactlCmd
  {
  }

  /**
   * The outcome of importing the module: the probe must find a tool, then the
   * default `set_affinity_cmd('numactl', None)` must succeed.
   */
  function LoadBinding(haveNumactl: bool, haveTaskset: bool): (r: Result<Binding, LoadError>)
    ensures r.Ok? <==> haveNumactl
    ensures r.Ok? ==> r.value == NumactlBinding(true)
    ensures !haveNumactl && !haveTaskset ==> r == Err(NoAffinityTool)
    ensures !haveNumactl && haveTaskset ==> r == Err(DefaultRejected(NumactlUnavailable))
  {
    if !haveNumactl && !haveTaskset then Err(NoAffinityTool)
    else match Configure(haveNumactl, haveTaskset, "numactl", None)
      case Ok(b) => Ok(b)
      case Err(e) => Err(DefaultRejected(e))
  }

  /** Whether a problem flag is a double dash followed by the problem argument. */
  predicate IsProblemFlag(flag: string)
  {
    |flag| >= 2 && flag[..2] == "--"
  }

  /** The globals of `multibench.core` that the setters update in place. */
  class Settings {
    const haveNumactl: bool
    const haveTaskset: bool
    var affinityCmd: seq<string>
    var memCmd: seq<string>
    var problemString: string

    /** The current `affinity_cmd` and `mem_cmd`. */
    function Current(): Binding
      reads this
    {
      Binding(affinityCmd, memCmd)
    }

    /** The settings hold a binding the host supports and a well-formed problem flag. */
    ghost predicate Valid()
      reads this
    {
      Permitted(haveNumactl, haveTaskset, Current()) && IsProblemFlag(problemString)
    }

    /**
     * The module once imported: record the probe results, then apply the
     * defaults `set_affinity_cmd('numactl', None)` and
     * `set_problem_string('problem')`. The first default succeeds only when
     * numactl is present.
     */
    constructor (haveNumactl: bool, haveTaskset: bool)
      requires haveNumactl
      ensures this.haveNumactl == haveNumactl && this.haveTaskset == haveTaskset
      ensures Valid()
      ensures Current() == Binding(["numactl", "-C"], ["-l", "--"]) && problemString == "--problem"
    {
      this.haveNumactl := haveNumactl;
      this.haveTaskset := haveTaskset;
      new;
      var outcome := SetAffinityCmd("numactl", None);
      SetProblemString("problem");
    }

    /**
     * Importing the module: fail without a tool, fail when the default
     * `set_affinity_cmd('numactl', None)` raises, and otherwise construct the
     * settings with their defaults.
     */
    static method Load(haveNumactl: bool, haveTaskset: bool) returns (r: Result<Settings, LoadError>)
      ensures r.Err? ==> LoadBinding(haveNumactl, haveTaskset) == Err(r.error)
      ensures r.Ok? <==> LoadBinding(haveNumactl, haveTaskset).Ok?
      ensures r.Ok? ==> fresh(r.value) && r.value.Valid()
                        && r.value.haveNumactl == haveNumactl && r.value.haveTaskset == haveTaskset
                        && r.value.Current() == Binding(["numactl", "-C"], ["-l", "--"])
                        && r.value.problemString == "--problem"
    {
      if !haveNumactl && !haveTaskset {
        return Err(NoAffinityTool);
      }
      match Configure(haveNumactl, haveTaskset, "numactl", None)
      case Err(e) =>
        return Err(DefaultRejected(e));
      case Ok(_) =>
        var settings := new Settings(haveNumactl, haveTaskset);
        return Ok(settings);
    }

    /**
     * `set_affinity_cmd`: either raise and leave both globals as they were, or
     * overwrite both with the binding `Configure` gives, whatever they held.
     */
    method SetAffinityCmd(command: string, bindmem: Option<bool>) returns (r: Outcome<AffinityError>)
      modifies this`affinityCmd, this`memCmd
      ensures match Configure(haveNumactl, haveTaskset, command, bindmem)
              case Ok(b) => r == Pass && Current() == b
              case Err(e) => r == Fail(e) && affinityCmd == old(affinityCmd) && memCmd == old(memCmd)
      ensures r.Pass? ==> Permitted(haveNumactl, haveTaskset, Current())
      ensures old(Valid()) ==> Valid()
    {
      if command == "numactl" && !haveNumactl {
        return Fail(NumactlUnavailable);
      } else if command == "taskset" && !haveTaskset {
        return Fail(TasksetUnavailable);
      } else if command == "taskset" && bindmem == Some(true) {
        return Fail(TasksetCannotBindMemory);
      } else if command != "numactl" && command != "taskset" {
        return Fail(UnknownCommand(command));
      }
      if command == "numactl" {
        affinityCmd := NumactlCmd;
        if bindmem.None? || bindmem.value {
          memCmd := LocalMemCmd;
        } else {
          memCmd := NoMemCmd;
        }
      } else {
        affinityCmd := TasksetCmd;
        memCmd := [];
      }
      return Pass;
    }

    /** `set_problem_string`: the flag becomes "--" followed by the argument. */
    method SetProblemString(probstring: string)
      modifies this`problemString
      ensures problemString == "--" + probstring
      ensures IsProblemFlag(problemString) && problemString[2..] == probstring
      ensures old(Permitted(haveNumactl, haveTaskset, Current())) ==> Valid()
    {
      problemString := "--";
      problemString := problemString + probstring;
    }
  }
}
